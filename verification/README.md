# Verified models of the platform

Dafny models of the parts of the platform that have to be right under retries, crashes and concurrency,
with proofs of what they promise. `dafny verify dfyconfig.toml` checks everything.

| file | what it models |
|---|---|
| SlidingWindow.dfy, TokenBucket.dfy | the two Redis rate limiters, script by script |
| Migrator.dfy | the schema migrator |
| Versioning.dfy | event subjects, the upcaster registry |
| Rbac.dfy | permission checks and their cache |
| Delivery.dfy | retry policy and the life of a message on a durable consumer |
| Outbox.dfy | transactional outbox, relays, and the deduplicating stream |
| Agent.dfy, Registration.dfy | the agent's registration loop, the cluster service, and both together as one machine |
| Images.dfy, Deployments.dfy, BuildConsumer.dfy | image references, releases with progress reports and automatic rollback, and the idempotent rollout of builds |
| Keyset.dfy | cursor pagination |
| Resources.dfy, Reconciler.dfy | the Kubernetes objects and the agent's reconcile cycle |
| ArgoMonitor.dfy | the Argo CD transition log and health gauge |
| Prelude.dfy | option and result types |

How to read them. Code that works on state step by step appears twice: as a class whose methods follow the
statements, and as a function that the methods are proved to compute. Runs are sequences of steps of that
function, and the main results are lemmas over all runs. A step that cannot happen in a state is skipped, so
"every sequence of steps" covers every interleaving. Database transactions are single steps, except where the
code itself reads outside its transaction (token lookup, cluster lookup on recovery) and where a concurrent
writer is modelled explicitly (`raced` reports, delayed cache stores).

Assumptions, all visible as parameters or preconditions:

- Time is an input. Where a result needs a clock that does not go back, it says so, and a lemma shows what
  happens otherwise. Token-bucket arithmetic is over the reals.
- The stream drops a message exactly when it stored the same event identifier less than two minutes ago, and
  keeps what it stored; the broker delivers a message at most MaxDeliver times.
- The role-assignment store answers GetUserRoles with the organisation-level assignments. Its interface has no
  implementation in the repository.
- A release is named by (deployment, revision), which the schema declares unique, in place of a generated UUID.
- An agent's installation token does not change during its life. State files are saved entirely or not at all.
- Kubernetes stores what it is sent; defaults it fills in are not compared by the agent's code.

Where code and comments disagree, the model follows the code:

- `Down` is described as rolling back the most recently applied migrations; it rolls back the highest versions
  (`Migrations.LateMigrationIsNotRolledBack`).
- A failed dead-letter write is said to keep the message for another attempt; on the last delivery there is none
  (`Delivery.NakOnLastAttemptStrands`).
- A failed automatic rollback is said not to fail the progress report; with a database that aborts a transaction
  on a refused insert the whole report is lost (`Deployments.LateFailureReportIsLost`), and a lost version race is
  committed half done (`Deployments.LostRaceRunsLatest`).
- The rollback handler sets the deployment's status to pending, but the store's update does not write it
  (`Deployments.RollbackKeepsStatusAndSpec`).
- The health gauge is said to reflect the live distribution; it also counts reconciles that were rolled back
  (`ArgoMonitor.GaugeIsAccounted`).

## Model
| member | source | states |
|---|---|---|
| BuildConsumer.AppliedOnce | backend/services/deployment/internal/build_consumer.go:218-349 | For every schedule of deliveries (duplicates, failures, retried transactions, crashes, lost commit replies) mixed with all other changes, rows, listing order and outbox equal those of a machine without a ledger that is handed each event once, at its first effective delivery; the ledger holds exactly the events that took effect |
| BuildConsumer.DeliveriesRollOut | backend/services/deployment/internal/build_consumer.go:218-349 | At the end of any schedule, a delivery that is a finished build, is the first of its event to take effect and commits moves a live deployment of the event's organisation whose repository is the build's, whatever tag or digest it ran, to repository@digest: status pending, next release with that image and the old replica count and configuration, one created event; every other deployment keeps row and events, and every other delivery changes nothing at all |
| BuildConsumer.StepRollsOut | backend/services/deployment/internal/build_consumer.go:249-344 | The same from any well-formed tables, with listing order, set of deployments and ledger |
| BuildConsumer.TakesEffectExactly | backend/libs/database/tx.go:51-94 | A delivery takes effect exactly if one of its first three attempts commits, heard or not, and every attempt before it was rolled back for a retryable reason |
| BuildConsumer.FirstDeliveriesAreDistinct | backend/services/deployment/internal/repository.go:495-505 | In the reduced schedule no event occurs twice |
| BuildConsumer.EffectiveAreKept | backend/services/deployment/internal/repository.go:495-505 | and every event that took effect occurs in it |
| BuildConsumer.EachLivesItsHistory | backend/services/deployment/internal/build_consumer.go:249-340 | In every schedule the rows and events of each deployment are those of one history of its own changes, so what is proved of all histories holds of all schedules; no race in the schedule means none in the history |
| BuildConsumer.AllRevisionsHaveNoGaps | backend/services/deployment/internal/build_consumer.go:265-306 | In every schedule each deployment's revisions are exactly 1..n, and unless a progress report lost a race its row runs the image and replica count of revision n |
| BuildConsumer.NoScheduleRollsBackARollback | backend/services/deployment/internal/agent_progress.go:107-176 | In every schedule no release created by an automatic rollback is rolled back, and none is rolled back twice |
| BuildConsumer.CounterIsExact | backend/services/deployment/internal/build_consumer.go:249-349 | The releases-created counter of a delivery that took effect equals the releases it created exactly if no rolled-back attempt had created one; otherwise it is larger, because the result is not reset between attempts |
| BuildConsumer.Consumer.Handle | backend/services/deployment/internal/build_consumer.go:165-212 | One delivery changes the tables as the guarded event does, or not at all; it is acknowledged exactly if it is foreign, unusable or its commit was heard; what the counter takes |
| BuildConsumer.Consumer.Process | backend/libs/database/tx.go:51-94 | Up to three attempts, retried only after retryable failures: the tables change exactly if an attempt commits, and success is reported exactly if that commit was heard |
| BuildConsumer.Consumer.RunTx | backend/services/deployment/internal/build_consumer.go:249-344 | A rolled-back attempt leaves no trace in rows, ledger and outbox, but its created releases are reported to the caller |
| BuildConsumer.Consumer.Attempt | backend/services/deployment/internal/build_consumer.go:265-340 | The loop over the listed deployments rolls out to exactly the hit ones among those it reached, and counts them |
| BuildConsumer.Consumer.RollOutOne | backend/services/deployment/internal/build_consumer.go:271-338 | Next revision after the highest, pinned image, row pointed at it and pending, one created event |
| Images.PinnedImageMatchesAgain | backend/services/deployment/internal/build_consumer.go:245-246 | A deployment pointed at a build's pinned image matches the next build of the same repository exactly if that repository has no colon after its last slash |
| Images.RegistryIsPrepended | backend/services/deployment/internal/build_consumer.go:352-368 | The registry is put in front exactly if there is one, there is an image, and the image's first path segment names no host and the image does not start with that registry already; otherwise the image stays as it is |
| Images.SurroundingSpaceIsIgnored | backend/services/deployment/internal/build_consumer.go:370-383 | White space around a reference does not change its repository |
| Images.TwoColonsAreCutTwice | backend/services/deployment/internal/build_consumer.go:373-383 | A name with two colons is a repository that stops matching itself once pinned |
| Images.TagAndDigestDoNotMatter | backend/services/deployment/internal/build_consumer.go:370-383 | A repository is found under any tag, any digest, and both |
| Deployments.RevisionsHaveNoGaps | backend/services/deployment/internal/agent_progress.go:182-212 | After any history of user changes, rollouts, status and progress reports (for any release, newest or not) revisions are exactly 1..n; without a lost race the row runs revision n |
| Deployments.FailureRollsBack | backend/services/deployment/internal/agent_progress.go:146-249 | A progress report starts a rollback if and only if it is the first failure of the newest release, no rollback created that release, rollback is on, no other transaction interfered and a successful release lies below; then the row runs the image and replica count of the highest such release, the next release repeats its configuration and is marked, and the events are progress, timeout if there was one, and rollback started |
| Deployments.HistoryRollsBack | backend/services/deployment/internal/agent_progress.go:146-249 | The same at the end of any history: exactly these events are added, and the row runs its newest release again |
| Deployments.QuietReport | backend/services/deployment/internal/agent_progress.go:107-145 | Row and events of an accepted report that does not fail: one healthy event when the release becomes healthy, with the completion if a rollback created it |
| Deployments.FailureWithoutRollback | backend/services/deployment/internal/agent_progress.go:146-176 | Row and events of an accepted failure report that rolls nothing back: only the snapshot moves, and a timeout is announced the first time |
| Deployments.RacedFailure | backend/services/deployment/internal/agent_progress.go:188-212 | What a lost race leaves: the failed snapshot and the new release, no marker, no change to the row's image, no rollback event |
| Deployments.UpdateTakesEffect | backend/services/deployment/internal/service.go:462-559 | The next release and the row carry what was asked for and otherwise what the row had, and one event announces exactly that; a replica count below one or a deleted deployment changes nothing |
| Deployments.UserRollbackTakesEffect | backend/services/deployment/internal/service.go:563-638 | A user's rollback goes to the wanted revision, or without one to the last successful one below the newest |
| Deployments.UserRollbackWithoutTarget | backend/services/deployment/internal/service.go:563-638 | and changes nothing if that does not exist |
| Deployments.StatusReportTakesEffect | backend/services/deployment/internal/agent_handlers.go:120-244 | A status report moves its release to the reported status, the row to the matching one, and nothing else |
| Deployments.DeletedForGood | backend/services/deployment/internal/service.go:434-458 | Once deleted, a deployment's rows and events never change again, whatever is asked or reported |
| Deployments.RollbacksStartOnce | backend/services/deployment/internal/agent_progress.go:182-249 | Each rollback.started goes to the next revision and repeats an earlier release's image and replica count; no release is rolled back twice; a release some rollback created is never the failed one of another |
| Deployments.CompletionsWereStarted | backend/services/deployment/internal/agent_progress.go:130-141 | Each rollback.completed is preceded by a rollback.started naming that release |
| Deployments.HealthyEventsAreEntries | backend/services/deployment/internal/agent_progress.go:107-132 | Healthy events per release are as many as the entries into Healthy in its sequence of accepted reports |
| Deployments.ReleasesAreImmutable | backend/services/deployment/internal/repository.go:363-380 | Once created a release keeps its number, image, replica count and configuration; only its status moves |
| Deployments.ApplyFits | backend/services/deployment/internal/service.go:462-638 | Every single change keeps revisions gapless, existing releases intact and, unless raced, the row on its newest release |
| Deployments.LostRaceRunsLatest | backend/services/deployment/internal/agent_progress.go:188-212 | If another transaction bumps the row's version in mid-rollback, the release is created but the row is not updated, and the report still commits: the row then runs its newest release exactly if the target equals what it already ran |
| Deployments.RaceLeavesRowBehind | backend/services/deployment/internal/agent_progress.go:205-212 | A concrete such race, after which the row runs the failed image |
| Deployments.RollbackKeepsStatusAndSpec | backend/services/deployment/internal/repository.go:248-269 | The automatic rollback moves image and replica count only; status and the rest of the configuration stay those of the failed release, while the new release records the target's |
| Deployments.LateFailureReportIsLost | backend/services/deployment/internal/agent_progress.go:163-169 | Where a refused insert aborts the transaction, a report leaves no trace exactly if it is the first failure report of an unmarked release that is not the newest and has a successful predecessor |
| Deployments.PreviousExists | backend/services/deployment/internal/repository.go:409-418 | The rollback target is the highest successful revision below the failed one |
| Deployments.Engine.UpdateDeploymentProgress | backend/services/deployment/internal/agent_progress.go:31-101 | The endpoint's new rows and events, including the refused and the rolled-back case |
| Deployments.Engine.constructor | backend/services/deployment/internal/service.go:246-354 | A new deployment starts with release 1 of its own image, replica count and configuration, pending, and one created event |
| Deployments.Engine.ApplyTransition | backend/services/deployment/internal/agent_progress.go:107-176 | Terminal events on a change of phase, rollback of unmarked failed releases, and whether the transaction can commit |
| Deployments.Engine.TriggerAutoRollback | backend/services/deployment/internal/agent_progress.go:182-249 | The four outcomes of a rollback and the rows and events each leaves |
| Deployments.Engine.UpsertRollout | backend/services/deployment/internal/rollout.go:103-139 | The snapshot is replaced, the rollback marker sticks |
| Deployments.Engine.CreateRelease | backend/services/deployment/internal/repository.go:363-380 | A taken revision is refused and changes nothing |
| Deployments.Engine.GetLatest | backend/services/deployment/internal/repository.go:400-407 | The highest revision |
| Deployments.Engine.GetPreviousSuccessful | backend/services/deployment/internal/repository.go:409-418 | The highest successful revision below a given one, if any |
| Deployments.Engine.UpdateDeployment | backend/services/deployment/internal/service.go:462-559 | The next revision carries the changed configuration; an invalid replica count changes nothing |
| Deployments.Engine.RollbackDeployment | backend/services/deployment/internal/service.go:563-638 | The target's configuration becomes the next revision; the row takes its image and replica count |
| Deployments.Engine.UpdateDeploymentStatus | backend/services/deployment/internal/agent_handlers.go:120-244 | Release and row status move together and one event is enqueued; anything else is refused without effect |
| Registration.RegisteredAgentsMatch | agents/platform-agent/internal/agent/agent.go:408-427 | Through lost replies, failed saves, lost state files, restarts under new temporary names and stale answers: a registered agent is bound to its token's cluster and carries a name some consumed token of it recorded; if at most one of its tokens was consumed, exactly the name the cluster records |
| Registration.IdentityNeverChanges | backend/services/cluster/internal/service.go:505-552 | A cluster's recorded agent name stays the same for ever while only one of its tokens has been consumed |
| Registration.SecondTokenLeavesStaleAgent | backend/services/cluster/internal/service.go:281-298 | The proviso is needed: a run in which a second token is consumed and the first agent still counts itself registered under the old name |
| Registration.TokensLeaveActiveOnce | backend/services/cluster/internal/repository.go:265-295 | From any reachable state on, a token keeps its cluster, leaves active at most once and never changes afterwards |
| Registration.TokensAreConsumedOnce | backend/services/cluster/internal/service.go:356-458 | With the token read apart from the transaction and all interleavings: one cluster.registered event per used token and none otherwise, no two active tokens per cluster, and the cluster of a used token has an agent |
| Registration.ExpiredTokensAreNeverConsumed | backend/services/cluster/internal/service.go:388-390 | Once an active token is past its expiry and no registration that read it in time is still under way, it is never consumed on any continuation of any run |
| Registration.TokenReadDecides | backend/services/cluster/internal/service.go:364-391 | Both endpoints refuse unknown and revoked tokens and active ones past their expiry; a used token leads to recovery however old it is; an active one in time leads to what was asked for |
| Registration.RegistrationSucceedsExactly | backend/services/cluster/internal/service.go:394-446 | A registration under way succeeds exactly if at that moment the cluster waits for an agent and the token is still active; the exact tables, event and answer then, and no change to them otherwise |
| Registration.RecoveryAnswersExactly | backend/services/cluster/internal/service.go:505-552 | A recovery answers with the recorded identity exactly if the cluster is live and has one, and writes nothing |
| Registration.TokensAreIssuedExactly | backend/services/cluster/internal/service.go:281-298 | A token is issued exactly if the cluster waits for an agent; it is then the only active one, the former one revoked |
| Registration.HeartbeatsConnectExactly | backend/services/cluster/internal/service.go:559-605 | A heartbeat connects the cluster exactly if it comes from the recorded agent of a live cluster; any other changes nothing |
| Registration.RecoveryRestoresIdentity | backend/services/cluster/internal/service.go:469-552 | Once the token is used, an agent that lost everything and woke up under any temporary name gets its recorded identity back from either endpoint |
| Registration.FreshInstallRegisters | backend/services/cluster/internal/service.go:356-458 | A new agent with an active token of a waiting cluster registers under its own name: the exact resulting state |
| Registration.RecoverIsOk | backend/services/cluster/internal/service.go:505-533 | Recovery only reports identities some consumption recorded; its fallback to the token's own record never decides the answer |
| Registration.RegisterIsOk | backend/services/cluster/internal/service.go:394-446 | The transaction keeps every table invariant and consumes the token at most once |
| Registration.GenerateIsOk | backend/services/cluster/internal/service.go:281-298 | Issuing a token keeps every table invariant, at most one active token per cluster included |
| Registration.ClusterService.GenerateRegistrationToken | backend/services/cluster/internal/service.go:249-323 | The tables afterwards, for whichever active token was found; nothing changes when refused |
| Registration.ClusterService.GetActiveByCluster | backend/services/cluster/internal/repository.go:256-263 | Finds an active token of the cluster exactly if there is one |
| Registration.ClusterService.RevokeRegistrationToken | backend/services/cluster/internal/repository.go:281-295 | Only an active token is revoked |
| Registration.ClusterService.LookUpToken | backend/services/cluster/internal/service.go:364-394 | How an endpoint's token read ends, the expiry of active tokens included; a used token's age does not matter |
| Registration.ClusterService.RegisterAgent | backend/services/cluster/internal/service.go:394-446 | The registration transaction with all its refusals |
| Registration.ClusterService.RecoverRegisteredCluster | backend/services/cluster/internal/service.go:505-552 | The recovery answer; nothing is written |
| Registration.ClusterService.RecordHeartbeat | backend/services/cluster/internal/agent_handlers.go:152-184 | Credential check and heartbeat: only the recorded agent brings its cluster back to connected |
| Registration.ClusterService.MarkAllDisconnected | backend/services/cluster/internal/service.go:631-666 | Exactly the stale clusters of the page are marked, and the count is their number |
| Registration.ClusterService.DeleteCluster | backend/services/cluster/internal/service.go:218-241 | A live cluster is marked deleted, once |
| Agents.Agent.EnsureRegistered | agents/platform-agent/internal/agent/agent.go:296-376 | An agent registered before asks nobody; otherwise the first conclusive attempt decides, earlier ones were all inconclusive, the waits between them are the configured back-off, and only a refused token that cannot recover either is fatal |
| Agents.Agent.TryOnce | agents/platform-agent/internal/agent/agent.go:330-366 | One attempt: conflict and refused token lead to recovery |
| Agents.Agent.AdoptRegistration | agents/platform-agent/internal/agent/agent.go:408-427 | The control plane's name supersedes the local one; a failed save leaves the file as it was |
| Agents.Agent.SendHeartbeat | agents/platform-agent/internal/agent/agent.go:484-557 | Only an unrecognised heartbeat rebuilds the registration, first by recovery, then by registering |
| Agents.Agent.constructor | agents/platform-agent/internal/agent/agent.go:118-145 | Boot from a loaded, missing or corrupt file, resolving the name by its precedence |
| Agents.WaitsArePositive | agents/platform-agent/internal/agent/agent.go:453-462 | Whatever is configured, no wait is zero or negative, overflow included |
| Agents.WaitsAreCappedDoubling | agents/platform-agent/internal/agent/agent.go:453-462 | With a maximum of at most 2^62 ns the waits after the first are min(first * 2^k, max) |
| Agents.UncappedWaitsDouble | agents/platform-agent/internal/agent/agent.go:453-462 | Without a maximum the wait doubles while 64 bits hold it and then stays |
| Agents.AttemptsAre | agents/platform-agent/internal/agent/agent.go:330-366 | An attempt gives up exactly on a refused token that recovery refuses too, and adopts the registration's answer, or after a conflict or refused token the recovery's; everything else is tried again |
| Outbox.OutboxIsSafe | backend/libs/events/relay.go:79-101 | Over every interleaving of committing and aborting business transactions, relays, failed publishes and crashes: a stream event has a committed row, a published row is in the stream, no row is in two relays' batches, and two stored copies of an event are a duplicate window apart |
| Outbox.CommittedEventsAreKept | backend/libs/events/outbox.go:53-67 | What a transaction enqueued is in the table from its commit on, for good; if it aborts instead the event is nowhere |
| Outbox.RowsNeverVanish | backend/libs/events/outbox.go:53-113 | No step of any run removes a row, changes its creation time or takes its mark back |
| Outbox.OfferedIsStoredExactly | backend/libs/events/conn.go:74-75 | The stream ignores an event exactly if it stored it less than two minutes ago |
| Outbox.LostReplyStores | backend/libs/events/relay.go:88-94 | A publish whose reply is lost is stored all the same; one that did not arrive stores nothing |
| Outbox.MarkedEventIsStored | backend/libs/events/relay.go:88-97 | A marked event is stored at least once and at most once more than the relay transactions that published it and were undone |
| Outbox.CopiesAreCounted | backend/libs/events/relay.go:88-97 | The same account for every event at every moment |
| Outbox.OneCopyWithinWindow | backend/libs/events/relay.go:13-15 | While a stored copy is younger than the window there is no later copy, however often publishing was retried |
| Outbox.MarkShrinksBacklog | backend/libs/events/outbox.go:106-113 | Marking takes exactly the batch out of the backlog, and a short batch empties it |
| Outbox.Relay.FetchUnpublished | backend/libs/events/outbox.go:71-103 | The oldest unlocked unpublished rows, at most the limit, fewer only if there are no more |
| Outbox.Relay.PublishBatch | backend/libs/events/relay.go:88-95 | Publishes in order up to the first error; on an error nothing is marked and the locks are gone |
| Outbox.Relay.DrainOnce | backend/libs/events/relay.go:79-101 | A run of this relay's steps: on success the backlog shrinks by the returned count, and a short count means it is empty; on failure no row is marked |
| Outbox.Relay.RunTick | backend/libs/events/relay.go:54-75 | A tick ends, and with every publish accepted nothing that could be locked is left unpublished |
| Delivery.BackoffIsCappedDoubling | backend/libs/events/retry.go:43-58 | Every delay equals min(base * 2^(k-1), max) in 64-bit arithmetic exactly if base < 2^62 and max is at most the largest doubling of the base below 2^63 |
| Delivery.HalfRangeNeverOverflows | backend/libs/events/retry.go:43-58 | A maximum of at most (2^63-1)/2 always meets that condition |
| Delivery.BackoffNeverShrinks | backend/libs/events/retry.go:24-58 | Under that condition delays never shrink and stay between base and maximum, for any configured values |
| Delivery.GapAfterFailure | backend/libs/events/subscriber.go:63-71 | The delay asked for after failed delivery k is entry k of the consumer's own schedule, and both are the capped doubling |
| Delivery.LeavesExactlyOnce | backend/libs/events/subscriber.go:85-144 | The first settling delivery, and only that one, takes a message out: acknowledged after a handled run, or terminated with a dead letter naming the attempt if it could be written |
| Delivery.StrandedExactlyWhenNothingSettles | backend/libs/events/subscriber.go:64-71 | Given its permitted deliveries a message stays behind unacknowledged for good exactly if none of them settles it |
| Delivery.EveryMessageIsAccountedFor | backend/libs/events/subscriber.go:85-144 | If dead-letter writes succeed and the last delivery is not cut off, every message ends acknowledged after a success or terminated with a dead letter |
| Delivery.RunsAreAckedOrLost | backend/libs/events/subscriber.go:112-116 | Successful runs are the acknowledged one plus one for each lost acknowledgement |
| Delivery.NakOnLastAttemptStrands | backend/libs/events/subscriber.go:132-138 | A failed dead-letter write on the last delivery leaves neither a success nor a dead letter, contrary to the comment beside it |
| Delivery.Consumer.HandleMessage | backend/libs/events/subscriber.go:85-144 | The reply and the dead letter for every combination of attempt, body and dead-letter failure |
| Delivery.Backoff | backend/libs/events/retry.go:43-58 | The loop equals its recursive specification, wrap-around included |
| Delivery.BackoffSchedule | backend/libs/events/retry.go:64-74 | One gap fewer than attempts, each the delay of its attempt; none without redelivery |
| Delivery.RetryPolicy.Normalized | backend/libs/events/retry.go:24-38 | Every configuration becomes a valid one, and a valid one is unchanged |
| SlidingWindow.DecidesAsFullHistory | backend/libs/ratelimit/redis.go:63-93 | With distinct members and a clock that does not go back, the pruned and expiring set admits exactly if fewer than limit+burst admissions of the whole history lie in the window, and reports the exact remainder |
| SlidingWindow.NoWindowOverflows | backend/libs/ratelimit/redis.go:63-93 | No window, wherever it ends, holds more than limit+burst admissions |
| SlidingWindow.RetryAfterIsExact | backend/libs/ratelimit/redis.go:86-92 | After a denial the next request is admitted exactly if it comes at least retryAfter later, whatever denied requests come in between |
| SlidingWindow.NothingAdmittedBelowOne | backend/libs/ratelimit/redis.go:86-92 | With limit+burst <= 0 everything is denied with a retryAfter of 0 |
| SlidingWindow.CollidingDrawsOverAdmit | backend/libs/ratelimit/redis.go:81 | The distinctness is needed: two equal random draws in one millisecond admit three requests under a limit of two |
| SlidingWindow.Limiter.Allow | backend/libs/ratelimit/redis.go:63-93 | One script run: state and answer |
| SlidingWindow.OldestScore | backend/libs/ratelimit/redis.go:86 | The least score of the set |
| TokenBucket.GrantsAreBounded | backend/libs/ratelimit/redis.go:149-183 | Tokens granted between two instants are at most capacity + rate * elapsed |
| TokenBucket.GrantsExactlyWithinBound | backend/libs/ratelimit/redis.go:149-183 | A request is granted exactly if it fits the bucket and, from every earlier call on, what was granted since and what is asked for fit the capacity plus what flowed in: everything the bound allows is granted |
| TokenBucket.LevelStaysInRange | backend/libs/ratelimit/redis.go:149-183 | The stored level stays within [0, capacity] |
| TokenBucket.ExpiryIsInvisible | backend/libs/ratelimit/redis.go:157-181 | Losing both keys at their expiry never changes an answer compared with keys that never expire |
| TokenBucket.TtlFillsTwice | backend/libs/ratelimit/redis.go:157-158 | The expiry is at least twice the time to fill |
| TokenBucket.ClockGoingBackOverGrants | backend/libs/ratelimit/redis.go:168-181 | A clock that goes back pays the same interval out twice |
| TokenBucket.Limiter.Allow | backend/libs/ratelimit/redis.go:149-183 | One script run: both keys and the answer |
| Reconciler.CyclesConverge | agents/platform-agent/internal/reconciler/reconciler.go:148-309 | With unchanged desired state, distinct names and succeeding calls a second cycle makes no create, update or delete call; after one cycle nothing owned in the agent's namespace, services apart, lies outside the desired names |
| Reconciler.CycleReachesDesired | agents/platform-agent/internal/reconciler/reconciler.go:148-309 | With distinct names, after one cycle from any state every desired deployment that is not deleted has its deployment object with the wished revision, image and replicas, its service on the wished port, its config maps' data, its claims' storage and its ingresses' rules and TLS, with their annotations and owner labels; excepted are foreign objects of guarded kinds, claims held back as immutable, and deployments without containers or replica count and services without ports that already agreed otherwise |
| Reconciler.CycleLeavesTheRest | agents/platform-agent/internal/reconciler/reconciler.go:449-727 | An object nobody asks for is left exactly as it was, unless it is the agent's own in its namespace and its name is not mentioned, or a service that goes with such a deployment: those are removed |
| Reconciler.NamesMakeKeys | agents/platform-agent/internal/reconciler/reconciler.go:470-727 | Distinct names in the desired records mean no two wishes for one object |
| Reconciler.RivalsNeverSettle | agents/platform-agent/internal/reconciler/reconciler.go:470-526 | The distinctness is needed: two differing wishes for one config map write in every cycle |
| Reconciler.UnownedIsNeverTouched | agents/platform-agent/internal/k8s/manager.go:593-719 | Over any run of apply and delete steps a config map, claim or ingress without the managed-by label stays exactly as it is |
| Reconciler.ClaimsGrowUntilDeleted | agents/platform-agent/internal/k8s/manager.go:824-955 | Until deleted, a claim's access modes, storage class and volume mode never change and its storage request never decreases, whatever is applied |
| Reconciler.UnownedDeploymentIsTakenOver | agents/platform-agent/internal/k8s/manager.go:208-243 | Deployments have no ownership guard: a foreign one is overwritten exactly if revision, image or replicas differ, and then counts as owned |
| Reconciler.ServiceGoesWithDeployment | agents/platform-agent/internal/k8s/manager.go:520-534 | Deleting a deployment deletes the service of its name, whoever owns it |
| Reconciler.CollectedIs | agents/platform-agent/internal/reconciler/reconciler.go:449-465 | What collection removes and keeps, object by object |
| Reconciler.Agent.Reconcile | agents/platform-agent/internal/reconciler/reconciler.go:148-224 | The loops compute the specified cycle and make exactly its calls |
| Reconciler.Agent.ReconcileDeployment | agents/platform-agent/internal/reconciler/reconciler.go:227-309 | Config maps, claims, deployment, service and ingresses of one desired deployment, in that order |
| Reconciler.Agent.CleanupOrphaned | agents/platform-agent/internal/reconciler/reconciler.go:531-549 | Exactly the owned, undesired objects of the kind in the agent's namespace go |
| Reconciler.Agent.CleanupOrphanedDeployments | agents/platform-agent/internal/reconciler/reconciler.go:449-465 | Likewise for deployments, with their services |
| Reconciler.Agent.ApplyConfigMap | agents/platform-agent/internal/k8s/manager.go:608-679 | Create, refuse, leave alone or overwrite |
| Reconciler.Agent.ApplyPVC | agents/platform-agent/internal/k8s/manager.go:824-955 | Create, refuse, skip what is immutable, leave alone, or correct metadata and grow storage |
| Reconciler.Agent.ApplyIngress | agents/platform-agent/internal/k8s/manager.go:1123-1209 | Create, refuse, leave alone or correct, never clobbering an unrequested class |
| Reconciler.Agent.ApplyDeployment | agents/platform-agent/internal/k8s/manager.go:146-269 | Create or overwrite on a change of revision, image or replicas |
| Reconciler.Agent.ApplyService | agents/platform-agent/internal/k8s/manager.go:272-342 | Create or overwrite on a change of port |
| Resources.SameElements | agents/platform-agent/internal/k8s/manager.go:958-973 | The counting loops (access modes here, hosts at 1281-1296) decide exactly equality as multisets |
| Resources.TLSEqual | agents/platform-agent/internal/k8s/manager.go:1265-1278 | Same secrets in order, same hosts in any order |
| Resources.RulesEqual | agents/platform-agent/internal/k8s/manager.go:1212-1255 | Rules compare equal exactly if they are |
| Resources.PVCImmutableChanged | agents/platform-agent/internal/k8s/manager.go:908-938 | Exactly the wishes that would change a fixed field or shrink storage |
| Resources.IngressNeedsUpdate | agents/platform-agent/internal/k8s/manager.go:1187-1209 | Decides exactly the drift of the specification |
| Resources.CorrectionSettles | agents/platform-agent/internal/k8s/manager.go:640-656 | Nothing counts as drifted right after it was created or corrected |
| Resources.OwnershipCannotBeOverridden | agents/platform-agent/internal/k8s/manager.go:590-603 | Desired labels cannot take ownership away |
| Resources.ClaimsOnlyGrow | agents/platform-agent/internal/k8s/manager.go:870-889 | One correction of a claim |
| Keyset.ListingIsFaithful | backend/libs/database/repository.go:93-127 | With arbitrary inserts and deletes between fetches, a finished listing returns every row present throughout at exactly one place, in strictly descending order |
| Keyset.WalkDescends | backend/libs/database/repository.go:107-124 | Rows come in strictly descending (created_at, id) order, so none twice, finished or not |
| Keyset.WalkMissesNothing | backend/libs/database/repository.go:107-124 | From any cursor on, no row present at every fetch is missed |
| Keyset.WalkReturnsRows | backend/libs/database/repository.go:107-124 | A returned row was in the table at some fetch |
| Keyset.FixedTableListing | backend/libs/database/pagination.go:79-88 | n > 0 unchanging rows take n/limit fetches, rounded up; an empty table takes one |
| Keyset.PageIsExact | backend/libs/database/pagination.go:79-88 | A page holds the newest rows past the cursor; its own cursor splits them from the rest and is absent exactly if nothing is left |
| Keyset.Normalize | backend/libs/database/pagination.go:25-33 | The limit ends up between 1 and 100 and is kept if it was |
| Rbac.ChecksAreUncachedEvaluation | backend/libs/security/rbac.go:356-398 | With colon-free identifiers and fixed roles, over any run of checks, assignments, revocations, expiries and evictions, every check answers as evaluation without a cache |
| Rbac.ChecksAllowTheEntitled | backend/libs/security/rbac.go:356-398 | Over any such run a check says yes exactly if a stored assignment has the request's user and organisation, its project is empty or the non-empty one asked about, and its role lists *:*, the permission itself, or resource:* for the resource before the first colon |
| Rbac.RoleScopes | backend/libs/security/rbac.go:367-381 | An organisation-level role counts in every project and without one, a project's role only in its own, a role of another organisation never |
| Rbac.FreshVerdictIsReused | backend/libs/security/rbac.go:293-316 | A verdict is handed out again until it expires |
| Rbac.ExpiredVerdictIsNotReused | backend/libs/security/rbac.go:293-316 | and past its expiry the check is evaluated and stored anew |
| Rbac.CacheStaysBounded | backend/libs/security/rbac.go:304-332 | The cache never exceeds maxSize |
| Rbac.CacheKeysAreRequests | backend/libs/security/rbac.go:357-358 | With colon-free identifiers a cache key belongs to one request |
| Rbac.ColonsShareEntries | backend/libs/security/rbac.go:357-358 | A colon in an identifier hands one user's verdict to another |
| Rbac.RoleUpdateLeavesStaleVerdict | backend/libs/security/rbac.go:474-480 | Changing a role leaves verdicts cached under its old definition |
| Rbac.DelayedStoreIsCoherent | backend/libs/security/rbac.go:367-397 | A verdict stored late is right if the user's assignments did not change meanwhile |
| Rbac.RevocationDuringCheckIsMissed | backend/libs/security/rbac.go:367-397 | and if they did, a revoked permission can be cached after the revocation cleared the cache |
| Rbac.RBACEngine.CheckPermission | backend/libs/security/rbac.go:356-398 | One check: hit, or evaluate and store |
| Rbac.RBACEngine.GetUserPermissions | backend/libs/security/rbac.go:415-445 | The returned permissions are exactly those the roles of applicable assignments list, and a request is allowed exactly if one of them covers it |
| Rbac.RBACEngine.AssignRole | backend/libs/security/rbac.go:448-454 | The assignment is added and the user's entries go |
| Rbac.RBACEngine.RevokeRole | backend/libs/security/rbac.go:457-463 | Exactly that assignment goes, and the user's entries |
| Rbac.RBACEngine.SetEntry | backend/libs/security/rbac.go:304-332 | A full cache loses one entry that expires no later than any other |
| Rbac.RBACEngine.InvalidateUser | backend/libs/security/rbac.go:334-343 | Exactly the entries whose key contains the user go |
| Rbac.RoleHasPermission | backend/libs/security/rbac.go:125-145 | A role has a permission exactly if one of its own covers it |
| Rbac.OldestKey | backend/libs/security/rbac.go:318-332 | An entry that expires no later than any other |
| Migrations.RunsKeepPrefix | backend/libs/database/migrate.go:105-153 | Any sequence of Up and Down calls, each possibly failing part way, keeps the applied versions a prefix of the sorted ones and the schema the fold of that prefix |
| Migrations.UpSucceedsExactly | backend/libs/database/migrate.go:105-125 | Up fails exactly if a migration that was not applied fails; otherwise everything is applied. Nothing applied is lost, nothing that fails is recorded, and the count is the number of versions added |
| Migrations.DownSucceedsExactly | backend/libs/database/migrate.go:128-153 | Down fails exactly if among the newest applied migrations, as many as asked for, one has no down script or fails |
| Migrations.UpThenDownRestoresExactlyPrefixes | backend/libs/database/migrate.go:105-153 | Up followed by Down of its count restores the applied set exactly if it was a prefix |
| Migrations.UpThenDownRestoresSchema | backend/libs/database/migrate.go:105-153 | and from a prefix also the schema |
| Migrations.LateMigrationIsNotRolledBack | backend/libs/database/migrate.go:127-153 | Down takes off the highest versions, not the most recently applied ones its comment promises |
| Migrations.SortSorts | backend/libs/database/migrate.go:94-101 | The migrations are worked on in strictly ascending order, each once |
| Migrations.Migrator.Up | backend/libs/database/migrate.go:105-125 | The ascending loop: tables, schema and count, up to the first failure |
| Migrations.Migrator.Down | backend/libs/database/migrate.go:128-153 | The descending loop likewise, stopping at a migration without a down script |
| Versioning.UpgradeFollowsChain | backend/libs/events/versioning.go:88-105 | Every upgrade ends, after at most as many steps as the largest registered version allows, with an envelope no upcaster applies to, or with an error at one whose upcaster fails or skips a version |
| Versioning.UpgradeIsIdempotent | backend/libs/events/versioning.go:88-105 | An upgraded envelope is upgraded |
| Versioning.UpcasterKeysArePairs | backend/libs/events/versioning.go:71-73 | String keys act like (type, version) pairs, colons in types included |
| Versioning.Registry.Register | backend/libs/events/versioning.go:78-84 | A pair registered twice panics and changes nothing; otherwise it is added |
| Versioning.Registry.Upgrade | backend/libs/events/versioning.go:88-105 | The loop over string keys computes the upgrade over pairs |
| Versioning.SubjectRoundTrip | backend/libs/events/versioning.go:13-52 | Every subject with a version >= 1 parses back to its type and version, even if the type contains the version mark |
| Versioning.ParseSubjectExactly | backend/libs/events/versioning.go:38-52 | Parsing accepts exactly the subjects that spell a type and a positive version |
| Versioning.ParsedSubjectNeedNotBeCanonical | backend/libs/events/versioning.go:38-52 | A parsed subject need not be the one its type and version produce |
| ArgoMonitor.HealthLogReplays | backend/services/deployment/internal/argocd_monitor.go:170-193 | Over all committed reconciles, per binding: each health change starts where the last ended, beginning with none, is a real change, and replaying them gives the stored health |
| ArgoMonitor.EdgesAreAnnouncedOnce | backend/services/deployment/internal/argocd_monitor.go:207-294 | Drift is announced once per rising edge, synchronisation starts, completions and failures once per entry into those phases, and the record is the last committed observation |
| ArgoMonitor.GaugeIsAccounted | backend/services/deployment/internal/argocd_metrics.go:66-84 | At every moment each bucket of the gauge is the number of bindings in it, less those found at process start, plus what rolled-back reconciles left behind |
| ArgoMonitor.GaugeIsExact | backend/services/deployment/internal/argocd_metrics.go:66-84 | Within the first process a bucket is exact if and only if what was rolled back cancels out there |
| ArgoMonitor.RetryCountsTwice | backend/services/deployment/internal/argocd_monitor.go:262-272 | A reconcile rolled back after moving the gauge and then retried counts its binding twice |
| ArgoMonitor.Monitor.ReconcileOne | backend/services/deployment/internal/argocd_monitor.go:151-195 | Record, events and gauge after one reconcile, committed or rolled back |
| ArgoMonitor.Monitor.EmitTransitions | backend/services/deployment/internal/argocd_monitor.go:207-294 | The events and the gauge move for one observation |
| ArgoMonitor.Monitor.RecordHealthGauge | backend/services/deployment/internal/argocd_metrics.go:66-73 | Empty statuses are not counted; a change moves one binding from bucket to bucket |

## Left out

- MultiTierLimiter: a loop over the limiters modelled here, adding only a choice of the strictest answer.
- Cursor encoding and decoding (JSON in base64) and malformed cursors; cursors are positions here.
- UpdateVersioned and the other single-row statements of the generic repository.
- Savepoints of nested transactions; only the outermost retry loop is modelled.
- Races between transactions under READ COMMITTED, other than the one on a deployment's version and the reads outside transactions; user updates and rollouts that lose a version race fail as a whole.
- MarkDeploymentStarted, MarkDeploymentSucceeded and MarkDeploymentFailed in the deployment service, which write a status without looking at the deployment.
- Release listing, which ignores its cursor, and secret synchronisation, which compares only the largest version.
- The Argo CD monitor's own writes to rollout snapshots: they would interleave with agent reports, and the healthy-entry count is about agent reports alone.
- Deletion of Argo CD bindings, which happens only by cascade from a deployment row.
- Store and network errors of the permission engine, and custom-role management beyond the stale-verdict example.
- BuildConsumer.Consumer.Handle: does not model the outcome and duration metrics, tracing and logs, because only the releases-created counter depends on the retry loop.
- Registration.ClusterService.MarkAllDisconnected: takes the first page of connected clusters as given; clusters beyond its 100 rows are not looked at by the code either.
- Registration.ClusterService.RecordHeartbeat: does not model heartbeat history and inventory fields, because nothing depends on them.
- Reconciler.Agent.Reconcile: does not model failing API calls; the results over runs of apply and delete steps cover cycles cut short anywhere.
- Status and progress reporting by the agent, leader election, pod health and rollout percentages.
- Organisation names in agent state and tenant scoping of tables, which are copied through unchanged.
- HTTP handlers, configuration, telemetry, the cryptographic and identity-provider code, and the frontend.
