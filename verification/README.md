# Notification service: a verified model

A Dafny 4.11 model of the notification service's delivery, ingestion and fan-out protocols, of its device and
connection registries, and of its small codecs. `dafny verify dfyconfig.toml` verifies it.

## What is modelled

**Delivery.** A row of the notification table is moved by carriers: a delivery or message on `noti.dispatch`, a
message on `noti.retry`, an in-process timer or spawned dispatch, a sweep with rows to hand out, or a queue caller
that has yet to trigger. `Protocol` is a state machine in which each adapter call is one step; any number of
dispatchers, callers, timers and sweeps interleave, any set of processes can crash between any two steps, a lost
channel makes the broker redeliver while the dispatch goes on, and a repository call can fail with or without having
taken effect. `Carriers`, `Retries`, `Admission`, `Drain` and `Overlaps` prove what its runs keep, `Sweeps` what a sweep
leaves alone, and `Runs` gives runs that show where a promise ends. `Repository`, `RabbitMq` and `Orchestrator` hold the
imperative form (classes with the source's methods, each proved against the functions the state machine is made of);
`Backoff` holds the arithmetic, with its u16, u32 and i32 widths explicit.

**Ingestion.** `Kafka` is the state machine of sessions (fetch positions, hand-over, bounded channel, worker, commits
in flight), any number of them at once; `Sessions` has the loops of one session as a class, which follows that machine
step by step. `Keys`, `Events` and `Replay` model the idempotency keys, every handler's ordered list of keyed queue
calls, and what redelivery makes of them; `Recipients` says whom these calls are for and what they tell. `Ingestion`
puts them together with the delivery protocol: what the committed offsets say about the table.

**Fan-out.** `Devices` is the token registry, `Fcm` the fan-out loop over it with its outcome rule, and `Fanouts` the
interleaving of any number of fan-outs, device by device.

**Codecs and projections.** `Entities`, `CallbackUrl`, `Connections` and `Wire`. `Domain`, `Strings` and `Totals` hold
what they share.

## Where code and comments differ

The model follows the code.

- A nack without requeue removes the delivery. The comment at `bin/noti-server/src/consumers/mod.rs:384-385` routes it
  to the retry queue, but `noti.dispatch` is declared without dead-letter arguments
  (`crates/noti-persistence/src/messaging/rabbitmq.rs:68-74`). `RepositoryErrorOrphansExactly` states the consequence.
- `update_status` has no guard on the old status, so a finished row stays finished only while its dispatches do not
  overlap (`TerminalLeftExactly`, `SentReopened`, `SentFails`, `FailedSends`).
- `variable` is documented to return the first key present as a non-empty string, but it drops blanks only after the
  first string was picked: a blank `title` hides the `headline` (`HeadlineHiddenExactly`).
- The reset link inserts its token without encoding it (`ResetLinkExact`, `ResetLinkLosesToken`).
- `rewrite_url` is documented to replace the origin and keep path and query. An upstream link without a path keeps its
  own origin behind the new one, and one whose first slash is in the query loses what precedes it (`RewriteExact`,
  `RewriteDoublesOrigin`). A link that starts with its path loses path and query up to the path of a URL in its query
  (`RewriteKeepsWhole`, `RewriteLosesPath`).
- The verification and wallet mails stay away when there is no link to put in them. The reset mail goes out with an
  empty one (`ResetMailsEmptyLink`).
- A token is revoked so that it is not sent to again, but a fan-out that had listed it before still sends
  (`PrunedSendsExact`, `PrunedStillSent`).
- `UserLoggedIn` counts before it queues, so a failure in between is not made up for (`LoginConvergesExactly`).
- Past a failed record the next commit moves on: ingestion attempts every record and does not promise that each
  succeeds (`AtLeastOnce`, `FailurePassedOver`).

## Model

| member | source | states |
|---|---|---|
| Carriers.NoOrphanEver | crates/noti-logic/src/orchestrator/dispatch.rs:83-143 | No orphan: from any state without orphans, under any interleaving of dispatchers, queue callers, timers and sweeps, while no repository call fails and nothing crashes, every Pending or Processing row has a live carrier, whatever providers, templates and publishes answer and however deliveries are acked, nacked or redelivered |
| Carriers.StepKeepsNoOrphan | crates/noti-logic/src/orchestrator/queue.rs:81-99 | One adapter call never takes the last carrier of an unfinished row away: a failed publish is replaced by the spawned task, a failed retry publish by the timer |
| Carriers.RepositoryErrorOrphansExactly | bin/noti-server/src/consumers/mod.rs:357-391 | A dispatch whose repository call fails, with or without having taken effect, is nacked and gone; a row is orphaned exactly when the dispatch's own row is left unfinished and nothing else carries it |
| Carriers.QueueErrorOrphansExactly | crates/noti-logic/src/orchestrator/queue.rs:52-58 | A failing insert orphans a row exactly when it took effect and made one |
| Carriers.CrashOrphansExactly | crates/noti-logic/src/orchestrator/queue.rs:81-99 | A crash keeps an unfinished row carried exactly when a message, a surviving process or an unacknowledged delivery among the dead carried it |
| Runs.LoadErrorOrphans | bin/noti-server/src/consumers/mod.rs:357-391 | A run in which a failing first query orphans a Pending row |
| Runs.MarkErrorOrphans | crates/noti-logic/src/orchestrator/dispatch.rs:35-38 | A run in which a mark that took effect behind an error orphans a Processing row |
| Carriers.SweepSelectsExactly | crates/noti-logic/src/orchestrator/queue.rs:108-125 | A sweep whose limit is not reached hands out, each once, exactly the rows due at its query, with any steps of the service between its two queries; of the rows those steps leave alone, exactly those that were Pending and due (5 s tolerance) or Processing and older than the threshold |
| Carriers.UnfinishedBecomesDue | crates/noti-persistence/src/repository.rs:278-319 | Every non-terminal row left alone meets that condition at all times past the larger of updated_at + threshold and next_retry_at - 5 s |
| Carriers.SweepRestoresCarriers | crates/noti-logic/src/orchestrator/queue.rs:101-125 | Crash recovery is complete: if each unfinished row that nobody moves is due, one sweep leaves every unfinished row with a carrier, with deliveries, queue calls and other sweeps going on between its queries and whatever was broken before it |
| Carriers.RecoveredForGood | crates/noti-logic/src/orchestrator/queue.rs:101-125 | From such a sweep on no row is orphaned, at any later time, while nothing breaks again |
| Sweeps.BackoffIsKept | crates/noti-persistence/src/repository.rs:295-312 | A retry that a dispatch has scheduled is kept by every later sweep: it is handed out only once its delay, less five seconds, has passed on the database's clock, and then by each sweep that does not reach its limit |
| Sweeps.MarkedIsLeftAlone | crates/noti-persistence/src/repository.rs:278-288 | A row that a dispatch has marked is handed out only by a sweep whose reset comes later than the threshold after the mark, and then by each that does not reach its limit |
| Sweeps.OutcomeIsLeftAlone | crates/noti-logic/src/orchestrator/dispatch.rs:83-134 | A row that a dispatch has brought to Sent or PermanentFailure is handed out by no sweep |
| Sweeps.PendingSwept | crates/noti-persistence/src/repository.rs:295-312 | Any Pending row is handed out when its retry time, less five seconds, has come, and not before |
| Sweeps.ProcessingSwept | crates/noti-persistence/src/repository.rs:278-288 | Any Processing row is handed out when its last write is older than the threshold, and not before |
| Retries.RetryBound | crates/noti-logic/src/orchestrator/dispatch.rs:96-116 | Generalised retry bound, under full interleaving, crashes and failing calls: if at most N dispatches of a row have been past their load at a time, its retry_count never exceeds 5 + (N - 1), however the dispatches of other rows overlapped |
| Runs.RetryBoundReached | crates/noti-logic/src/orchestrator/dispatch.rs:96-116 | No smaller bound holds: for every N there is a run in which at most N dispatches overlap and retry_count reaches 5 + (N - 1) |
| Retries.LedgerEver | crates/noti-logic/src/orchestrator/dispatch.rs:83-134 | In every run, for every row: provider calls are accounted for by retries, terminal writes, dispatches that still hold an answer and dispatches cut off within the call or before writing its outcome; accepted pushes by accepted calls and calls cut off |
| Retries.TerminalForGood | crates/noti-logic/src/orchestrator/dispatch.rs:29-57 | As long as dispatches of this row have not overlapped, Sent and PermanentFailure are not left and the row changes only by its read marks, whatever crashes, failing calls and overlaps on other rows there are |
| Retries.SerialisedEver | crates/noti-persistence/src/repository.rs:228-259 | As long as dispatches of this row have not overlapped: its sent_at is set exactly when it is Sent, a dispatch of it past its load holds it unfinished with the retry count that was read, and it has at most one terminal write after a provider call |
| Retries.SendsBounded | crates/noti-logic/src/orchestrator/dispatch.rs:83-134 | For a row whose dispatches have not overlapped, provider calls are at most retry_count + 1 + the dispatches cut off within the provider call or before the write of its outcome; six if none is cut off |
| Retries.DeviceHearsOnce | crates/noti-persistence/src/providers/fcm.rs:294-328 | Push at most once: over the whole retry chain of a row whose dispatches have not overlapped each device token gets at most one accepted send, plus one per dispatch cut off between an accepting answer and the Sent write, plus one per dispatch that dies within its provider call, when any of its devices may have accepted |
| Runs.PushBoundReached | crates/noti-persistence/src/providers/fcm.rs:298-328 | No smaller bound holds: for all numbers of failing Sent writes and of crashes within the fan-out there is a run without overlaps in which a device hears once for each of them and once more |
| Overlaps.TerminalLeftExactly | crates/noti-persistence/src/repository.rs:241-247 | In any state, a step changes the status of a Sent or PermanentFailure row exactly when it is a status write of a dispatch of that row that takes effect with another status |
| Overlaps.TerminalLeftFor | crates/noti-logic/src/orchestrator/dispatch.rs:29-134 | Which write it is decides the new status: the mark Processing, the rescheduling Pending, a success over a failure Sent, a failure over a success PermanentFailure |
| Overlaps.ReopenedExactly | crates/noti-persistence/src/repository.rs:241-247 | It is active again exactly after the first two |
| Runs.SentReopened | crates/noti-logic/src/orchestrator/dispatch.rs:29-38 | A run without failing call or crash in which a redelivered dispatch takes a row from Sent back to Processing: TerminalForGood does need dispatches that do not overlap |
| Runs.SentFails | crates/noti-logic/src/orchestrator/dispatch.rs:83-105 | Such a run from Sent to PermanentFailure |
| Runs.FailedSends | crates/noti-logic/src/orchestrator/dispatch.rs:83-105 | Such a run from PermanentFailure to Sent |
| Drain.Drains | crates/noti-logic/src/orchestrator/dispatch.rs:22-134 | Drain: any work without overlaps from a ready state (no orphan, no overlap, and what every run keeps) can go on until nothing is under way; however it goes on it stays within the steps and dispatches left at the start, and every row is then Sent or PermanentFailure, whatever providers, templates and publishes answered |
| Drain.DrainBound | crates/noti-logic/src/orchestrator/dispatch.rs:22-134 | While dispatches of a row do not overlap and nothing breaks, the dispatches still made are at most one per carrier plus the retries the unfinished rows have left, and the steps at most StepsLeft |
| Drain.WorkingStep | crates/noti-logic/src/orchestrator/dispatch.rs:83-134 | Every working step uses up one of the steps left, every load one of the dispatches left |
| Drain.QueueCost | crates/noti-logic/src/orchestrator/queue.rs:21-76 | Any queue call adds at most 6 dispatches and 52 steps to what is left, and nothing when the key was taken |
| Drain.NeverStuck | crates/noti-logic/src/orchestrator/dispatch.rs:22-134 | As long as anything is under way, some working step is possible that lets no dispatches of a row overlap |
| Drain.RestMeansFinished | crates/noti-logic/src/orchestrator/dispatch.rs:83-134 | At rest every row of a ready state is Sent or PermanentFailure |
| Drain.RunsAreReady | crates/noti-logic/src/orchestrator/dispatch.rs:22-134 | A state of any run, whatever overlapped, failed or crashed before, is ready if no row is orphaned in it and each row has had no overlap or has no dispatch past its load |
| Admission.CallersAgree | crates/noti-persistence/src/repository.rs:156-188 | At every moment of every run each non-null key has at most one row, every successful caller with the key got this row's id, and null keys never deduplicate |
| Admission.OneTriggerPerKey | crates/noti-logic/src/orchestrator/queue.rs:52-75 | At most one caller per key ever triggers a dispatch; exactly one once some call used the key, no call failed, nothing died and the callers are through |
| Admission.AdmittedEver | crates/noti-logic/src/orchestrator/queue.rs:52-75 | The invariant behind both: unique keys, answers that name the key's row, and a trigger owed only to the call that made the row |
| Orchestrator.DispatchSettles | crates/noti-logic/src/orchestrator/dispatch.rs:22-134 | With a working repository a dispatch touches no other row and leaves an unfinished row, in every column, as it was but for: Sent with its reference and time and no error, or PermanentFailure with the error, or Pending with the error, retry_count + 1, the doubled delay and the retry scheduled, by rendering, provider answer and retry count |
| Orchestrator.FaultEndsDispatch | crates/noti-logic/src/orchestrator/dispatch.rs:22-134 | Whichever repository call fails, the dispatch ends there with an error and schedules nothing; a failing load has touched no row, a failing mark is followed by no provider call |
| Orchestrator.DispatchIsAnExecution | crates/noti-logic/src/orchestrator/dispatch.rs:22-134 | An undisturbed dispatch is an execution of the protocol that ends with its table and result, so it keeps whatever all executions keep |
| Orchestrator.NotificationOrchestrator.Dispatch | crates/noti-logic/src/orchestrator/dispatch.rs:22-134 | Whatever each adapter call answers, the table and result are those of the protocol's steps, and a scheduled retry goes out exactly once: on the retry queue with the delay as TTL, else on a timer |
| Orchestrator.NotificationOrchestrator.Send | crates/noti-logic/src/orchestrator/dispatch.rs:82-133 | The same as for Dispatch, from the provider call on |
| Orchestrator.NotificationOrchestrator.Retry | crates/noti-logic/src/orchestrator/dispatch.rs:106-130 | The retry branch: increment, back to Pending, and one message or timer with exactly the backoff |
| Orchestrator.NotificationOrchestrator.SpawnInProcessRetry | crates/noti-logic/src/orchestrator/dispatch.rs:136-138 | One more timer for the row with the full delay |
| Orchestrator.NotificationOrchestrator.WakeRetry | crates/noti-logic/src/orchestrator/dispatch.rs:138-142 | After the sleep the timer is gone and the row has been dispatched, with the table, result and next retry of the protocol's steps |
| Orchestrator.NotificationOrchestrator.TriggerDispatch | crates/noti-logic/src/orchestrator/queue.rs:81-99 | Exactly one task for the row: on the dispatch queue if the publish works, else spawned |
| Orchestrator.NotificationOrchestrator.QueueNotification | crates/noti-logic/src/orchestrator/queue.rs:21-76 | The caller gets the id of the key's row; exactly when that row is its own, the row is stored as asked and one task goes out |
| Orchestrator.NotificationOrchestrator.RecoverPending | crates/noti-logic/src/orchestrator/queue.rs:108-125 | Stuck rows are reset, and one task goes out for each row the query selects and for no other; an error of either query ends the sweep with nothing handed out |
| Orchestrator.NotificationOrchestrator.ProcessDispatchPayload | bin/noti-server/src/consumers/mod.rs:392-418 | Poison payloads are acked without effect; otherwise ack exactly when the dispatch returned Ok, with the table it leaves |
| Orchestrator.NotificationOrchestrator.StartRabbitmqConsumer | bin/noti-server/src/consumers/mod.rs:325-375 | The loop dispatches the waiting deliveries in order and puts none back, skips faulty ones, ends when the token fires, and ends with an error exactly when an ack or nack does not go through, whose delivery the broker takes back |
| Orchestrator.ConsumesAll | bin/noti-server/src/consumers/mod.rs:343-372 | Left alone with working acks it works the whole queue off |
| Orchestrator.ConsumedExact | bin/noti-server/src/consumers/mod.rs:343-372 | Up to the token every arrival is dispatched while deliveries wait, past any faulty ones; the first failing ack or nack ends the loop, with its delivery dispatched |
| Orchestrator.EachByItself | bin/noti-server/src/consumers/mod.rs:343-372 | Each of the dispatched deliveries leaves its row as its dispatch alone would have left it, whatever was dispatched before and after |
| Orchestrator.RetryCountsStay | crates/noti-persistence/src/repository.rs:261-276 | A dispatch creates and loses no row and never lowers a retry count |
| Backoff.DelayFitsU32 | crates/noti-logic/src/orchestrator/dispatch.rs:107-109 | The delay overflows no u32 for any retry count an i32 can hold |
| Backoff.DelayGrows | crates/noti-logic/src/orchestrator/dispatch.rs:107-109 | The delay doubles up to the fifteenth retry and stays at 65535 minutes from the sixteenth on |
| Backoff.PlacementExact | crates/noti-persistence/src/messaging/rabbitmq.rs:95-99 | The TTL equals the requested delay exactly for whole nonzero minutes within the i32 product; other delays in its range are cut to whole minutes, or dispatched at once below one |
| Backoff.ScheduledRetryIsExact | crates/noti-persistence/src/messaging/rabbitmq.rs:149-156 | For every retry the dispatcher schedules the broker TTL equals the backoff, which doubles from 120000 to 1920000 ms |
| RabbitMq.RabbitMQClient.PublishTask | crates/noti-persistence/src/messaging/rabbitmq.rs:95-136 | A positive minute count appends to the retry queue with the wrapped i32 product as expiration, any other to the dispatch queue; a failed publish changes nothing |
| RabbitMq.RabbitMQClient.PublishRetry | crates/noti-persistence/src/messaging/rabbitmq.rs:149-156 | The message lands where the truncated and reinterpreted minute count puts it |
| Repository.NotificationRepository.Create | crates/noti-persistence/src/repository.rs:156-188 | Upsert on the key: the row that holds the key, untouched, or the new row; null keys never conflict; an error may or may not have taken effect |
| Repository.NotificationRepository.Update | crates/noti-persistence/src/repository.rs:228-276 | The named row gets the statement's columns, every other row stays, a missing row is no error |
| Repository.NotificationRepository.ResetStuckProcessing | crates/noti-persistence/src/repository.rs:278-293 | Exactly the Processing rows whose last write is older than the threshold become Pending and due, and are counted |
| Repository.NotificationRepository.GetPendingForRetry | crates/noti-persistence/src/repository.rs:295-319 | Distinct Pending rows whose retry time, less five seconds, has come, up to the limit, and all of them if it is not reached |
| Kafka.AtLeastOnce | bin/noti-server/src/consumers/mod.rs:179-246 | At-least-once attempt: in every run of overlapping, rebuilt and crashed sessions, with panics, rebalances and lost, late or reordered commits, handle_record has returned for every stored record below the committed offset of its partition |
| Kafka.SafeEver | bin/noti-server/src/consumers/mod.rs:205-246 | The invariant behind it: committed and in-flight positions pass only handled records, and a session with a live worker has every earlier record handled or ahead in its channel |
| Kafka.AssignmentResumes | bin/noti-server/src/consumers/mod.rs:166-167 | A session that is assigned a partition polls first the first stored record at or after the committed offset |
| Kafka.FinishCommitsSafely | bin/noti-server/src/consumers/mod.rs:261-271 | offset + 1 of the record just handled passes only handled records |
| Kafka.DrainLosesNothing | bin/noti-server/src/consumers/mod.rs:239-246 | A session that closes with its worker alive has handled everything it ever polled |
| Kafka.CommittedSucceeded | bin/noti-server/src/consumers/mod.rs:179-196 | In runs where no handling returned an error, the records below the committed offset all succeeded |
| Kafka.PassedExactly | bin/noti-server/src/consumers/mod.rs:261-271 | In every run, a step takes the committed position past a record, failed or not, exactly when it lands the commit of a success, the record's own or that of a later record of its partition |
| Kafka.FailurePassedOver | bin/noti-server/src/consumers/mod.rs:192-196 | With an error they need not: a run in which a failed record is passed over by the commit of the next one |
| Sessions.KafkaSession.Run | bin/noti-server/src/consumers/mod.rs:158-247 | Whatever the pace of the worker beside the poll loop: records are handled in the order polled, commits go out for successes only; if the worker lives, everything polled has been handled in the end, and the result is an error exactly when the brokers went down before the token fired; a dead worker handled exactly the records before the one it died of. When the records come as they lie in the log, the whole session, poll loop, worker and drain, is a stretch of a run of the ingestion machine that began where the session did, and the session may close at its end |
| Sessions.KafkaSession.Poll | bin/noti-server/src/consumers/mod.rs:200-237 | The loop hands over what comes in until the token, a fatal error or a closed channel ends it, and is a stretch of such a run |
| Sessions.PolledExact | bin/noti-server/src/consumers/mod.rs:200-237 | What is polled is every record received before the token fires or the brokers are gone, in order, past idle ticks and transient errors; the loop ends with an error exactly when it was the brokers |
| Sessions.KafkaSession.Work | bin/noti-server/src/consumers/mod.rs:180-198 | One turn of the worker: the oldest record is handled and, on success only, committed at offset + 1; or the worker dies of it and the channel is lost; either way by steps of the machine |
| Sessions.KafkaSession.Send | bin/noti-server/src/consumers/mod.rs:209-214 | A record goes to the end of the channel, which never exceeds its capacity; to a dead worker it is an error, the record is not taken and polling ends; by steps of the machine |
| Sessions.WorkReached | bin/noti-server/src/consumers/mod.rs:179-198 | Handling the oldest record is two steps of the machine, with exactly this record handled and this commit in flight |
| Sessions.HandOverReached | bin/noti-server/src/consumers/mod.rs:209-214 | Polling and handing over a record are two steps of the machine, to a full stop if the worker is dead |
| Sessions.SessionCommitsSafely | bin/noti-server/src/consumers/mod.rs:261-271 | So what holds in every run holds of the session, whatever others ran before: each commit it sent passes only handled records |
| Keys.EventKeyInjective | bin/noti-server/src/consumers/events.rs:40-45 | For colon-free event ids the key determines label and id |
| Keys.FallbackKeyInjective | bin/noti-server/src/consumers/events.rs:40-45 | The kafka form determines label, partition and offset |
| Keys.FormsDisjoint | bin/noti-server/src/consumers/events.rs:40-45 | The two forms never meet for labels that do not start with `kafka:` |
| Keys.KeyCollides | bin/noti-server/src/consumers/events.rs:40-45 | Two keys are equal exactly for the same label of the same event |
| Events.PlansWellTagged | bin/noti-server/src/consumers/events.rs:374-424 | The calls of every handler but UserLoggedIn's carry pairwise different labels, none of which starts with `kafka:` |
| Replay.LoginWellTagged | bin/noti-server/src/consumers/events.rs:1221-1242 | So do UserLoggedIn's |
| Replay.LoginIsFor | bin/noti-server/src/consumers/events.rs:1221-1242 | Both are for the user who signed in, one in the app and one pushed, and name the address |
| Events.ResetMailsEmptyLink | bin/noti-server/src/consumers/events.rs:741-779 | The reset mail goes out whenever there is an address, and its link is empty exactly when the event has no URL and either no token or no frontend is configured |
| Events.VerificationNeedsLink | bin/noti-server/src/consumers/events.rs:781-835 | In that case the verification mail stays away; it never carries an empty link |
| Events.ConfirmationNeedsLink | bin/noti-server/src/consumers/events.rs:986-1045 | Likewise the wallet confirmation mail |
| Recipients.PlansWellAddressed | bin/noti-server/src/consumers/events.rs:374-424 | For every event: each call in the app and each push is for the party its label and its role name, at that party's id, each mail for the event's address; and each party whose id parses is told in the app and, where the event is pushed, by a push |
| Recipients.PlansTruthful | bin/noti-server/src/consumers/events.rs:374-424 | In every call each template variable carries the field of the event that its name stands for |
| Recipients.PlansPushesSay | bin/noti-server/src/consumers/events.rs:374-424 | Every push text names the event's own figures, in their order |
| Recipients.PlansTemplated | bin/noti-server/src/consumers/events.rs:374-424 | Each event's calls are made from its own template, and pushes from theirs |
| Recipients.VerifyMailReads | bin/noti-server/src/consumers/events.rs:790-835 | The link in a verification mail reads back as page, token and address, for any number of slashes at the end of the frontend, exactly when that has neither '?' nor '#' |
| Recipients.ConfirmMailReads | bin/noti-server/src/consumers/events.rs:986-1045 | The link in a wallet confirmation mail likewise, with the wallet |
| Recipients.ResetMailReads | bin/noti-server/src/consumers/events.rs:750-779 | The link in a reset mail reads back exactly when nothing in its token needs encoding |
| Recipients.ResetIsRewritten | bin/noti-server/src/consumers/events.rs:753-754 | A link that the event brings goes before its token, rewritten to the frontend |
| Recipients.VerificationIsRewritten | bin/noti-server/src/consumers/events.rs:794-795 | Likewise in the verification mail |
| Recipients.ConfirmationIsRewritten | bin/noti-server/src/consumers/events.rs:999-1000 | Likewise in the wallet confirmation mail |
| Recipients.UpstreamIsMailed | bin/noti-server/src/consumers/url.rs:53-70 | Its origin then becomes the frontend's, and path and query stay; without a frontend it is mailed as it is |
| Recipients.WelcomeLeads | bin/noti-server/src/consumers/events.rs:440-443 | The welcome mail leads to the frontend, without a slash at its end, or to the public site |
| Recipients.MailedExactly | bin/noti-server/src/consumers/events.rs:436-438 | Welcome, certificate and lockout mails go out exactly when there is an address; a lockout of a login without an at sign stays silent |
| Recipients.LockoutIsCovered | bin/noti-server/src/consumers/events.rs:1267-1278 | The minutes of a lockout are the fewest that cover its seconds, one at least |
| Recipients.UnitIsShown | bin/noti-server/src/consumers/events.rs:632-637 | The unit of an issued certificate is the event's, trimmed, unless that is blank |
| Replay.Convergence | bin/noti-server/src/consumers/events.rs:374-424 | Replay convergence: for any deliveries, redelivered, reordered, interleaved call by call and cut off at any call, once each event's calls all took effect, a key holds a content exactly when one of the events plans that content for that key |
| Replay.ConvergesToClean | bin/noti-server/src/consumers/events.rs:374-424 | The store is then the one that a clean run, each event handled once, leaves |
| Replay.AskIsHeld | bin/noti-server/src/consumers/events.rs:40-45 | A call that took effect decides its key's content for good |
| Replay.SameEventsSameStore | bin/noti-server/src/consumers/events.rs:460-510 | Any two histories of the same events end with the same key-to-notification map |
| Replay.HandlersAreConsistent | bin/noti-server/src/consumers/events.rs:868-916 | The handlers (all but UserLoggedIn) meet the premises of both |
| Replay.UpsertIsFirstWins | crates/noti-persistence/src/repository.rs:156-188 | On keyed rows the table's upsert is the first-call-wins map these results are about |
| Replay.WritesKeepContent | crates/noti-persistence/src/repository.rs:228-293 | No delivery write and no sweep changes what a row is to deliver |
| Replay.Intake.Handle | bin/noti-server/src/consumers/events.rs:460-510 | A handler makes its calls in order and stops at the first that fails; the store is the one after exactly the calls that took effect, all of them if it returns Ok |
| Replay.LoginConvergesExactly | bin/noti-server/src/consumers/events.rs:1207-1242 | UserLoggedIn bumps its counter first: whatever other sign-ins share the counter, a sign-in has both alerts in the end exactly when it is the one of the first counted delivery and that delivery made both calls |
| Ingestion.TableShows | crates/noti-persistence/src/repository.rs:156-188 | At every moment of every run of the delivery protocol the table's keyed rows are the first-call-wins map of the queue calls so far: each key has a row, with the content of the first call that took effect |
| Ingestion.HandlersAreSound | bin/noti-server/src/consumers/events.rs:374-424 | The handlers' plans meet what the joint runs ask of them, for colon-free event ids where equal ids or coordinates mean equal events |
| Ingestion.SignInKeysAreFree | bin/noti-server/src/consumers/events.rs:1221-1242 | No plan uses the keys of UserLoggedIn's calls, so joint runs take these calls in beside the plans |
| Ingestion.SucceededIsQueued | bin/noti-server/src/consumers/mod.rs:179-246 | In every joint run of the consumers and the delivery protocol, each notification planned for a record of which some handling succeeded, committed or not and however often it failed, has a row in the table, under its key and with its content |
| Ingestion.CommittedIsQueuedUnlessFailed | bin/noti-server/src/consumers/mod.rs:179-246 | This goes for every stored record below the committed offset of which not all handlings failed |
| Ingestion.CommittedIsQueued | bin/noti-server/src/consumers/mod.rs:179-246 | In joint runs without a handling error this goes for every stored record below the committed offset |
| Ingestion.SucceededIsDelivered | crates/noti-logic/src/orchestrator/dispatch.rs:22-134 | From a ready state of the service the work can then go on to rest, without overlaps and within the steps left, with each such notification Sent or PermanentFailure |
| Ingestion.CommittedIsDelivered | crates/noti-logic/src/orchestrator/dispatch.rs:22-134 | The same for stored records below the committed offset of which not all handlings failed |
| Ingestion.QuietServiceIsReady | crates/noti-logic/src/orchestrator/dispatch.rs:22-134 | The service of any joint run is ready once no row is orphaned and no dispatch is past its load, whatever happened before |
| Devices.PgDeviceTokenRepository.Register | crates/noti-persistence/src/device_tokens.rs:54-83 | Upsert on the token: re-pointed, seen now and active, or a new row |
| Devices.PgDeviceTokenRepository.Revoke | crates/noti-persistence/src/device_tokens.rs:101-115 | The unrevoked row of the token, if there is one, gets its revocation time |
| Devices.PgDeviceTokenRepository.ActiveForUser | crates/noti-persistence/src/device_tokens.rs:85-99 | The user's unrevoked tokens in table order |
| Devices.ActiveForExact | crates/noti-persistence/src/device_tokens.rs:85-99 | Exactly the user's unrevoked tokens are listed, each once |
| Devices.OneUserPerToken | crates/noti-persistence/src/device_tokens.rs:60-72 | A token is active for at most one user |
| Devices.RegisterKeepsUnique | crates/noti-persistence/src/device_tokens.rs:54-83 | Registration keeps tokens unique and makes the token active for that user |
| Devices.RegisteredExact | crates/noti-persistence/src/device_tokens.rs:54-83 | After a registration the table holds the token's row with this user, this platform, seen now and active, and every other row as it was |
| Devices.RevokedExact | crates/noti-persistence/src/device_tokens.rs:101-115 | A revocation changes the token's row alone, and once: a revoked row keeps its first time |
| Devices.RevokeKeepsUnique | crates/noti-persistence/src/device_tokens.rs:101-115 | Revocation keeps tokens unique and ends exactly this token's activity |
| Fcm.FcmProvider.Send | crates/noti-persistence/src/providers/fcm.rs:278-329 | The outcome rule, over the answers of the devices: no tokens is success; an error comes exactly when the fan-out never began, or no device took the message and some answer was transient; dead tokens are revoked; the reference reports the counts |
| Fcm.FcmProvider.FanOut | crates/noti-persistence/src/providers/fcm.rs:298-316 | The loop counts the accepted and the dead, remembers whether an answer was transient, and revokes the dead |
| Fcm.AcceptedExact | crates/noti-persistence/src/providers/fcm.rs:298-316 | Exactly the tokens that took the message count as delivered |
| Fcm.PrunedExact | crates/noti-persistence/src/providers/fcm.rs:298-316 | Exactly those reported dead count as pruned |
| Fcm.RetryableExact | crates/noti-persistence/src/providers/fcm.rs:298-316 | Exactly those with a transient answer are left for a retry |
| Fcm.ReportReadsBack | crates/noti-persistence/src/providers/fcm.rs:321-323 | The provider reference reads back to the number delivered and the number pruned, in this order |
| Fcm.Partition | crates/noti-persistence/src/providers/fcm.rs:294-316 | Each token of a fan-out is delivered, pruned or retryable: exactly one of them |
| Fcm.Conservation | crates/noti-persistence/src/providers/fcm.rs:294-316 | delivered + pruned + retryable is the number of tokens |
| Fcm.FanOutMeetsContract | crates/noti-persistence/src/providers/fcm.rs:318-328 | One fan-out reaches a device at most once and fails only if nobody took it, which is what DeviceHearsOnce asks of a provider |
| Fcm.PruningExact | crates/noti-persistence/src/providers/fcm.rs:301-310 | After a fan-out exactly the tokens reported dead and successfully revoked have become inactive |
| Fcm.TokensStayUnique | crates/noti-persistence/src/device_tokens.rs:60-72 | Over every run of register, revoke and send, each token is active for at most one user |
| Fcm.PrunedStaysSilent | crates/noti-persistence/src/providers/fcm.rs:301-310 | A token pruned by a successful revoke is in no later fan-out of any user until it is registered again |
| Fanouts.InactiveFadesOut | crates/noti-persistence/src/providers/fcm.rs:285-316 | With listing, each send and each revocation as steps of their own, between those of other fan-outs, registrations and sign-outs: until it is registered again, an inactive token is sent to only by fan-outs that had listed it while it was active and not yet come to it, by each at most once, and these only become fewer |
| Fanouts.PrunedFadesOut | crates/noti-persistence/src/providers/fcm.rs:301-310 | In every such run a token reported dead and revoked is sent to later at most once per fan-out that still had it before it |
| Fanouts.StaleSendsExact | crates/noti-persistence/src/providers/fcm.rs:285-316 | From any state an inactive token can be sent to exactly as often as there are fan-outs that still have it before them: that many sends are possible, and no more |
| Fanouts.PrunedSendsExact | crates/noti-persistence/src/providers/fcm.rs:301-310 | So in every run a token that has been reported dead and revoked can be sent to again exactly if some fan-out still has it before it |
| Fanouts.PrunedStillSent | crates/noti-persistence/src/providers/fcm.rs:285-316 | There are such fan-outs: of two of one user the second sends to the token the first has pruned |
| Fanouts.FanOutIsARun | crates/noti-persistence/src/providers/fcm.rs:298-316 | An undisturbed stretch of these steps leaves the table that the loop over the devices leaves |
| Entities.RoundTrip | crates/noti-persistence/src/providers/smtp.rs:196-208 | decode_entities undoes the autoescaper on every string: nothing is decoded twice |
| Entities.Stage | crates/noti-persistence/src/providers/smtp.rs:199-207 | While ampersands are escaped, one global replacement decodes its own entity everywhere and nothing else |
| Entities.EntityDecodes | crates/noti-persistence/src/providers/smtp.rs:196-208 | Each of the nine entities decodes to its character within any text that holds no other |
| Entities.EscapeInjective | crates/noti-persistence/src/providers/smtp.rs:196-208 | No two texts are escaped alike |
| CallbackUrl.UrlEncode | bin/noti-server/src/consumers/url.rs:30-45 | The byte loop builds the specified encoding |
| CallbackUrl.EncodingRoundTrip | bin/noti-server/src/consumers/url.rs:30-45 | Percent-decoding gives back every byte string |
| CallbackUrl.EncodingInjective | bin/noti-server/src/consumers/url.rs:30-45 | urlencode is injective |
| CallbackUrl.EncodedAlphabet | bin/noti-server/src/consumers/url.rs:30-45 | Only unreserved characters and %HH come out (sections 2.1 and 2.3 of RFC 3986) |
| CallbackUrl.StandsForItself | bin/noti-server/src/consumers/url.rs:30-45 | Exactly letters, digits and the four marks pass unescaped |
| CallbackUrl.PageExact | bin/noti-server/src/consumers/url.rs:8-25 | One slash stands between base and path, however many the base ends with and whether or not the path has its own |
| CallbackUrl.LinkRoundTrip | bin/noti-server/src/consumers/url.rs:8-25 | A two-parameter link reads back to page, names and values exactly when the base has neither '?' nor '#'; the page is the base without its trailing slashes, one slash and the path, for paths with and without a leading slash |
| CallbackUrl.VerifyLinkRoundTrip | bin/noti-server/src/consumers/events.rs:790-805 | The verification link returns token and email exactly when the base has neither '?' nor '#' |
| CallbackUrl.WalletLinkRoundTrip | bin/noti-server/src/consumers/events.rs:986-1045 | The wallet confirmation link likewise |
| CallbackUrl.ResetLinkExact | bin/noti-server/src/consumers/events.rs:750-757 | The reset link leaves its token unencoded: it survives exactly when it holds no ampersand, no number sign and nothing that reads as an escape |
| CallbackUrl.ResetLinkLosesToken | bin/noti-server/src/consumers/events.rs:756-756 | The tokens `a&b`, `a#b` and `a%41` are lost |
| CallbackUrl.RewriteKeepsWhole | bin/noti-server/src/consumers/url.rs:53-70 | Any nonempty upstream comes out whole behind the base, as a link that starts with its path should, exactly when no slash follows the first `://` in it |
| CallbackUrl.RewriteExact | bin/noti-server/src/consumers/url.rs:53-70 | For every absolute link, rewriting takes the origin from the base and keeps everything behind the authority exactly when a path is there; without any slash there the whole upstream link is put behind the base |
| CallbackUrl.RewriteLosesHead | bin/noti-server/src/consumers/url.rs:58-65 | A link that carries a URL with a path, in its query for instance, loses everything before that path |
| CallbackUrl.RewriteLosesPath | bin/noti-server/src/consumers/url.rs:58-65 | `/verify?token=t&next=http://h/p` is such a link: path and token are gone |
| CallbackUrl.RewriteDoublesOrigin | bin/noti-server/src/consumers/url.rs:65-66 | The link `http://h?t` comes out with two origins |
| Connections.ConnectionManager.AddConnection | crates/noti-api/src/websocket.rs:75-87 | The flat table of (user, connection) gains this entry; no user is left with an empty inner map; the gauge is the table's size |
| Connections.ConnectionManager.RemoveConnection | crates/noti-api/src/websocket.rs:102-120 | The flat table loses this entry and nothing else, with the same invariant |
| Connections.ConnectionManager.TotalConnections | crates/noti-api/src/websocket.rs:91-93 | The sum over the inner maps |
| Connections.SizesAddUp | crates/noti-api/src/websocket.rs:91-93 | That sum is the size of the flat table |
| Connections.FlatDecides | crates/noti-api/src/websocket.rs:33-35 | The nested maps that stand for a flat table are determined by it |
| Connections.ConnectionManager.SendToUser | crates/noti-api/src/websocket.rs:39-64 | The message goes once through each connection of the user, exactly the dead ones are dropped, nothing else changes, and the answer is true exactly when one was alive |
| Connections.EachHearsOnce | crates/noti-api/src/websocket.rs:50-61 | If no sender was registered twice, each open connection hears the message exactly once and every other mailbox is unchanged |
| Connections.AllSent | crates/noti-api/src/websocket.rs:39-64 | In terms of the flat table: the user's connections to open mailboxes stay and hear one copy each, the others are gone, nobody else's change, and the answer is whether one was open |
| Wire.AgreementExact | crates/noti-logic/src/orchestrator/query.rs:53-69 | Listing and frame agree on type, title and message, however templates render, exactly for templates that are not `.html.tera` and rows whose variables carry both title and body |
| Wire.AgreesOnText | crates/noti-logic/src/orchestrator/dispatch.rs:64-71 | The same for a frame and a later state of the same row |
| Wire.ShownExact | crates/noti-core/src/wire.rs:44-59 | The fields of listing and frame: the title is the visible `title` variable, else the `headline`, else the heading; the message is the visible `body` variable, else the text below the heading; read exactly when read_at is set |
| Wire.TextTemplateKeeps | crates/noti-core/src/wire.rs:71-99 | text_template_id is idempotent and keeps stem and event type |
| Wire.HeadingExact | crates/noti-core/src/wire.rs:144-159 | A heading is split off exactly from a line, an underline and the rest, and the pieces rebuild the text; text without one is its own body |
| Wire.TitleEmptyExactly | crates/noti-core/src/wire.rs:118-132 | A title is empty exactly when no variable and no heading names it and the stem is only underscores |
| Wire.WordsOfSnake | crates/noti-core/src/wire.rs:162-173 | A snake-case stem is read back word by word |
| Wire.TwoWords | crates/noti-core/src/wire.rs:162-173 | Two words become two capitalised ones, without a space in the event name and with one in the title |
| Wire.OrdinaryName | crates/noti-core/src/wire.rs:88-99 | The event name is the template's own in pascal case but for six templates |
| Wire.UpstreamName | crates/noti-core/src/wire.rs:88-99 | Those six have the name of the upstream event |
| Wire.HeadlineHiddenExactly | crates/noti-core/src/wire.rs:135-140 | A visible headline yields no title exactly when `title` is a blank string; without a `title` string the trimmed headline is the title |
| Strings.TrimExact | crates/noti-core/src/wire.rs:138-139 | Trimming takes blanks only, off both ends, leaves nothing exactly of a blank string, and else text that starts and ends visibly |

## Left out

- SQL, Redis, lapin, rdkafka, reqwest and lettre: row maps, queues and mailboxes with nondeterministic answers; a
  publish that returns Ok is in its queue, the broker survives service crashes and returns unacknowledged deliveries.
- A push that was accepted while its answer was lost counts as not accepted, as the service counts it.
- Message order and expiry times on the broker's queues: any queued message may be delivered or expire next.
- The Redis write of the idempotency key in `queue_notification`, which nothing reads back.
- Template rendering (a function that may fail; in the delivery protocol any answer at all), HTML stripping, JSON
  parsing and the encoding of WebSocket payloads, which is taken to succeed.
- OAuth token minting and its cache: the token endpoint either answers or fails the fan-out.
- REST and gRPC handlers, OpenAPI, configuration, wiring, metrics, readiness flags and the supervisor's own backoff:
  plumbing, or easy members. Sessions start and end at any time instead of under a supervisor loop.
- Webhook address filtering and the choice of TLS mode.
- Interleavings inside one registry call: the methods of `ConnectionManager` are atomic, and a full mailbox, which
  makes the sender wait, is not represented.
- Unclean broker elections that take back acknowledged log entries; log retention and gaps are modelled.
- Topic-level uniqueness of the `kafka:` key: the key carries no topic.
- In joint runs a sign-in record is handled with an empty plan: its calls, which depend on the counter, are among the
  queue calls made from elsewhere, and that they precede its commit is not stated.
- The 90 days after which a login counter is forgotten, and the texts of the wallet security alerts, which are
  parameters.
- Case mapping is a parameter of `Wire`; strings are sequences of characters without normalisation.
- Overflow of the i32 TTL product is modelled as wrapping, as in a release build; a debug build panics there.
- Thresholds and times are milliseconds throughout, where the repository passes seconds for the stuck threshold.
- Retries.TerminalForGood: needs dispatches of the row not to overlap, because the code does not guard its writes.
- Retries.DeviceHearsOnce: counts one more push per dispatch cut off within the provider call or between an accepting
  answer and the Sent write, because that dispatch is repeated.
- Sessions.KafkaSession.Run: the stretch of the machine's runs holds this session's steps alone; steps of the brokers
  and of other sessions in between are those of the machine.
- CallbackUrl.ResetLinkExact: the page reads its query as RFC 3986 does; a reader of form-encoded pairs would also turn
  a plus sign of the token into a space.
