# Release notifier: a verified model of its delivery protocol

The repository notifies subscribers of new GitHub releases. Two services cooperate through Redis keys,
RabbitMQ queues and two Postgres tables: a back end (subscriptions, the subscribe saga, the release scan) and a
notification service (a queue consumer and a gRPC handler that send mail). This project models the protocol
between them, its data formats and its building blocks in Dafny 4.11, and proves what holds of every run.

`dafny verify dfyconfig.toml --resource-limit 2000000 --verification-time-limit 0` checks everything.

## How the model is built

**Step machines.** `Notification` (the mail service), `Backend` (the subscription side), `Pipeline` (both together,
joined by what they send each other), `ScanLocks`, `WorkerPool` and `ReleaseCache` are machines with an explicit
state: clock, key store with expiries, queues, tables, and how far each process has got. One step is what happens
between two awaits of the source. Everything the environment decides (which process runs, which call fails, whether
a call that failed took effect all the same, when a process dies) is in the step's label, so a run is a list of
steps, and a theorem about every list is a theorem about every interleaving of any number of processes.

**The code beside the machines.** Where the source updates things in place, classes do so too: repositories and
orchestrator (`Repositories`, `SubscribeSaga`, `SubscriptionService`), store, handlers, consumer and gRPC server
(`Infrastructure`, `EmailConsumer`, `GrpcServer`), lock store, scan producer and scan worker (`ScanRuns`,
`ScanProducer`, `ScanWorker`), and the cache client (`ReleaseCache`). They run on ordinary fields. A ghost copy of the
machine advances with them: after each statement `Record` names the machine step just taken and its enabling condition
is proved, and the fields are proved equal to the machine's. At every await the method `Others` may take any run of
steps by anybody else; callers know only its contract. Each method's `Took` clause lists exactly the steps it
contributes, in order. So the theorems about all runs are theorems about these methods, and the methods use them (an
acknowledgement is proved to be backed by a sent mail through the run theorem). The reader, the writer and the codec
methods (`WireStreams`, `NotificationCodec`) share nothing with anybody and are proved against their specification
functions; the pool's loop (`WorkerPool`) is proved to be a run of its machine under a given order of turns.

**Time.** Clocks are natural numbers. A step that completes a call takes effect at once; the moment a store applied a
command and the moment the caller resumed are one. The retry queue's delay is "some time".

## What the code does not keep

Some of the properties one would expect are false of the code. Each has a run or input that shows it. Where the
condition under which the code is right is exact, it is stated as an equivalence; where it is only sufficient, that is
said.

- *A FAILED reply can be overtaken.* When a delivery fails for good, no mail with its key is younger than the done
  time to live at the moment the key is given back (`LastFailureIsGenuine`). The reply is published later, and another
  copy of the order can send in between (`FailedReplyOvertaken`). In timely runs the published reply is wrong exactly
  when another order with the key was confirmed between the dead-lettering and the publication, which is exactly when
  the key then reads as done (`FailedReplyWrongIffOvertaken`).
- *The saga's last write in `start` is unconditional.* A saga's history is a legal lifecycle exactly when that write
  found it STARTED (`LifecycleIffTimely`). Otherwise it can be claimed twice (`TwoClaimsHappen`, and never more often:
  `ClaimBound`) and can both complete and run a compensating delete (`CompletesAndDeletes`).
- *A subscribe call whose check was outrun by a confirmation demotes the confirmed row* (`OutrunUpsertDemotes`). A
  confirmed subscription ends exactly by such an upsert or by an unsubscribe call (`ConfirmedSurvivesInEveryRun`); no
  compensation ends it.
- *At-most-once needs its assumption.* It holds while leases are kept and no confirmation after a send is lost, a
  sufficient condition. Neither half can be dropped: for every lease and positive done time a holder that outlives its
  lease makes two sends at the same moment (`OutlivedLeaseSendsTwice`), and with every lease kept a lost confirmation
  alone lets the mail go out again one lease later (`LostConfirmSendsTwice`).
- *Two messages for one scan lock key can be outstanding under a lock time still running.* An unlock takes away the lock
  that another copy of the same message relies on. There are two copies when a retry copy was stored although the
  publish was not confirmed (`DoubledMessageSharesKey`), or when the ack of a finished message died with the connection
  while its worker went on to unlock (`LostAckSharesKey`). Exactly: until its time is over, a job's lock stands if and
  only if no unlock found its token in the store and freed it (`JobStandsIffNotFreed`). Of two messages for one key the
  older had run out when the younger was taken, or was freed (`TwoOutstandingOnlyAfterExpiry`). A next message for the
  key gets out exactly when every earlier one still in time was freed, and no lock was left to expire
  (`AttemptWinsIffAllFreed`). Only a doubled message is ever freed while a copy of it is there.
- *The JSON form of a response loses unknown statuses*; it keeps a response exactly when the status is in the
  enumeration (`ResponseRoundTripIff`). The wire form keeps every int32.
- *Names with colons or commas collide* (`ColonsCollide`, `CommasCollide`).
- `confirmDelivery` publishes the SENT reply twice (notification-service/src/consumer/email.consumer.ts:102-108); the
  model does the same.

## Model

| member | source | states |
|---|---|---|
| NotificationTheorems.OnePlaceAlways | notification-service/src/consumer/email.consumer.ts:135-235 | in every run, crashes and redelivery included, a published message is in exactly one of main, retry, dead, acknowledged or one handler's hands |
| NotificationSafety.StepMoves | notification-service/src/consumer/handlers.ts:6-36 | each step moves at most the one message that the source moves there, from and to the stated places |
| NotificationTheorems.EndsAreEarned | notification-service/src/consumer/email.consumer.ts:163-219 | an acknowledged message has a sent mail with its key and its own delivered event or SENT reply published; a valid dead message has spent MAX_RETRIES |
| NotificationContent.SoundAlongRuns | notification-service/src/consumer/email.consumer.ts:88-133 | in every run content is kept on every move, and events, replies and SENT or DUPLICATE answers are published only for orders with a sent mail behind them |
| NotificationTheorems.AtMostOnceInTime | notification-service/src/modules/sender/adapters/redis-idempotency.store.ts:15-34 | if holders stay within their lease and no confirmation after a send is lost: one holder per key at a time, sends with one key at least the done time apart, and a key reads as done exactly while a confirmation is that recent |
| NotificationTiming.TimelyStep | notification-service/src/consumer/email.consumer.ts:150-219 | every single step within the assumption keeps the timed invariant, for consumers and gRPC handlers alike |
| NotificationTheorems.LastFailureIsGenuine | notification-service/src/consumer/email.consumer.ts:192-212 | when a failed delivery gives its key back, no send and no confirmation of that key is younger than the done time |
| NotificationDone.FailedReplyWrongIffOvertaken | notification-service/src/consumer/email.consumer.ts:111-133 | in every timely run a FAILED reply is wrong at its publication exactly when its key was confirmed between the dead-lettering and then, and exactly when the key reads as done |
| NotificationLimits.FailedReplyOvertaken | notification-service/src/consumer/email.consumer.ts:192-212 | a timely run in which another order with the same key sends between the dead-lettering and the FAILED reply |
| NotificationLimits.OutlivedLeaseSendsTwice | notification-service/src/modules/sender/adapters/redis-idempotency.store.ts:15-34 | for every configuration with a positive done time, a run with an outlived lease sends one mail twice at one moment |
| NotificationLimits.LostConfirmSendsTwice | notification-service/src/modules/sender/adapters/redis-idempotency.store.ts:28-30 | for every lease shorter than the done time, a run with every lease kept and one lost confirmation sends one mail twice, a lease apart |
| NotificationDone.DoneKeySendsNothing | notification-service/src/consumer/email.consumer.ts:163-180 | while a key is done and unclaimed, no step of any run sends with it, with no assumption on leases |
| NotificationTheorems.QueuesDrain | notification-service/src/consumer/email.consumer.ts:258-268 | without new messages and crashes only finitely many working steps are left, bounded by a rank over messages and handlers, and the run can go on exactly until main, retry and handlers are empty |
| NotificationTermination.WorkLowers | notification-service/src/consumer/handlers.ts:14-36 | every consumer and retry-expiry step lowers that rank |
| NotificationTheorems.AttemptsInEveryRun | notification-service/src/consumer/handlers.ts:14-36 | without crash redelivery a message is taken up at most MAX_RETRIES + 1 times |
| Infrastructure.RedisIdempotencyStore.Claim | notification-service/src/modules/sender/adapters/redis-idempotency.store.ts:15-26 | won exactly when the key was not live at the SET NX; otherwise, after an await, done or in_progress as the GET then reads; either call may throw |
| EmailConsumer.Handlers.HandleRetry | notification-service/src/consumer/handlers.ts:14-36 | moves the message by the retry count and says whether it was dead-lettered |
| EmailConsumer.Consumer.ConfirmDelivery | notification-service/src/consumer/email.consumer.ts:88-109 | one delivered event, or the SENT reply twice, then the ack, in just these steps; the first error requeues; an ack leaves a sent mail and a published notice |
| EmailConsumer.Consumer.ProcessMessage | notification-service/src/consumer/email.consumer.ts:135-235 | under any interference the handler's own steps are one of the listed paths in order, and the message ends acknowledged and vouched for, requeued with one more retry, or dead, also after a reported failure |
| GrpcServer.Server.HandleSendReleaseNotification | notification-service/src/grpc/notification.grpc-server.ts:32-94 | one answer, by the path taken, and which; refused exactly when one of the five fields is empty, and then neither store nor provider is touched; SENT and DUPLICATE only with a mail of that key sent; after a failed delivery whose release went through the key is gone, after a confirmed one it is done for the done time |
| NotificationKeys.KeyChanges | notification-service/src/modules/sender/adapters/redis-idempotency.store.ts:15-34 | each step of either transport: a claim of a key not shown sets it pending for a lease, a confirmation done for the done time, a release deletes it; no other step changes a key |
| NotificationKeys.ReleasedKeyCanBeClaimed | notification-service/src/grpc/notification.grpc-server.ts:71-86 | after a failed delivery whose release went through, by a handler of either transport that alone held the key, the next claim of the key wins if no claim came between, whatever else happens |
| NotificationKeys.ReleasedKeyIsFree | notification-service/src/consumer/email.consumer.ts:192-199 | in every timely run the condition on other holders is met, so the next claim wins |
| NotificationAnswers.AnswersExactly | notification-service/src/grpc/notification.grpc-server.ts:45-94 | which answer a call gets at each of its steps, and that it gets one: DUPLICATE exactly when its key reads as done, ABORTED when it does not, SENT after its own mail, INTERNAL after a failed delivery, UNAVAILABLE after a store error |
| NotificationAnswers.RepeatedCallIsDuplicate | notification-service/src/grpc/notification.grpc-server.ts:57-62 | in every timely run, once a delivery is confirmed and until the done time is over, calls with its key are answered DUPLICATE whenever the store answers, and nothing is sent with the key |
| NotificationAnswers.SentAnswerMeansOwnMail | notification-service/src/grpc/notification.grpc-server.ts:93 | in every run a call answered SENT had the very mail it asked for sent, in every field |
| NotificationAnswers.NoticesExactly | notification-service/src/consumer/email.consumer.ts:88-133 | delivered events, SENT and FAILED replies are published exactly by the announcements and reports, each with its own message's fields |
| NotificationRetries.RetriesCounted | notification-service/src/consumer/handlers.ts:14-36 | a message's retry count grows by one exactly when a handler puts it in the retry queue, and no other step, crash redelivery included, changes it |
| NotificationRetries.CrashRedelivers | notification-service/src/consumer/email.consumer.ts:282-286 | a handler may die at any point before it settled its message, which is then in the main queue with its content and count |
| GrpcServer.Server.Receive | notification-service/src/grpc/notification.grpc-server.ts:22-30 | a request is valid exactly when its five fields are not empty |
| SagaTheorems.LifecycleIffTimely | git-release-notifier-be/src/modules/saga/orchestrator/subscribe.saga.ts:19-93 | a saga's history is a legal lifecycle exactly when its AWAITING_EMAIL write found it STARTED; its last entry is the current state |
| SagaTheorems.NeverBoth | git-release-notifier-be/src/modules/saga/orchestrator/subscribe.saga.ts:41-93 | such a saga never both completes and runs a compensating delete |
| SagaTheorems.TerminalStays | git-release-notifier-be/src/modules/saga/repositories/saga.repository.ts:34-53 | such a saga, once COMPLETED or COMPENSATED, keeps its state in every continuation |
| SagaTheorems.ClaimBound | git-release-notifier-be/src/modules/saga/orchestrator/subscribe.saga.ts:78-91 | with no timing assumption the COMPENSATING claim is won at most twice, and at most once when AWAITING_EMAIL was written first |
| SagaTheorems.TwoClaimsHappen | git-release-notifier-be/src/modules/saga/orchestrator/subscribe.saga.ts:35 | a run in which the overwritten claim is won a second time |
| SagaTheorems.CompletesAndDeletes | git-release-notifier-be/src/modules/saga/orchestrator/subscribe.saga.ts:35 | a run in which a saga completes and its compensating delete runs as well |
| SagaLifecycle.SagaStep | git-release-notifier-be/src/modules/saga/repositories/saga.repository.ts:34-53 | every step of every interleaving keeps the histories, the payment of claims and who may still write |
| SubscriptionSafety.ConfirmedSurvivesInEveryRun | git-release-notifier-be/src/modules/subscriptions/services/subscription.service.ts:19-69 | in every run a step ends an ACTIVE row exactly when it is the delete of an unsubscribe call or an upsert whose active check came before the activation; no compensation does it, also when sagas share the row |
| SubscriptionSafety.OutrunUpsertDemotes | git-release-notifier-be/src/modules/subscriptions/repositories/subscription.repository.ts:22-30 | a run in which such an upsert sets a confirmed row back to PENDING |
| Repositories.SagaRepository.Transition | git-release-notifier-be/src/modules/saga/repositories/saga.repository.ts:41-53 | the compare-and-set moves the row and says so exactly when it was in one of the given states |
| Repositories.SagaRepository.FindStuck | git-release-notifier-be/src/modules/saga/repositories/saga.repository.ts:26-32 | returns exactly the sagas in STARTED or AWAITING_EMAIL whose last write is before the threshold, each once |
| BackendEffects.SagaColumnsChange | git-release-notifier-be/src/modules/saga/orchestrator/subscribe.saga.ts:19-93 | each step writes a saga's state and time exactly by start's last write, a completion from AWAITING_EMAIL, a claim from STARTED or AWAITING_EMAIL, or the mark after a claim, to that very saga; its other columns never change |
| BackendEffects.SagasCome | git-release-notifier-be/src/modules/saga/repositories/saga.repository.ts:15-21 | a saga row appears exactly when its subscribe call creates it, STARTED and with that call's row and names, and never goes |
| BackendEffects.RowColumnsChange | git-release-notifier-be/src/modules/subscriptions/repositories/subscription.repository.ts:22-121 | in each step a row that stays keeps its address, repository and tokens; its tag changes exactly by an advance for its own pair with another tag, its status exactly by its confirmation or an upsert of it |
| BackendEffects.RowsComeAndGo | git-release-notifier-be/src/modules/subscriptions/repositories/subscription.repository.ts:22-73 | a row appears exactly by an upsert that found none of its pair, with these columns, and goes exactly by the unsubscribe call that found it or by a compensation that finds it PENDING |
| Repositories.SubscriptionRepository.UpsertPending | git-release-notifier-be/src/modules/subscriptions/repositories/subscription.repository.ts:22-30 | sets the pair's row to PENDING whatever it was, and creates one only when there is none |
| Repositories.SubscriptionRepository.DeleteIfPending | git-release-notifier-be/src/modules/subscriptions/repositories/subscription.repository.ts:67-73 | removes the row exactly when it is PENDING |
| SubscribeSaga.Orchestrator.Start | git-release-notifier-be/src/modules/saga/orchestrator/subscribe.saga.ts:19-39 | its own steps are upsert, saga row, order, mark, in this order; one order, under the row's own token; the saga ends in AWAITING_EMAIL |
| SubscribeSaga.Orchestrator.OnReply | git-release-notifier-be/src/modules/saga/orchestrator/subscribe.saga.ts:41-63 | a reply for a saga not in AWAITING_EMAIL changes nothing; SENT only attempts the completion; otherwise that saga is compensated |
| SubscribeSaga.Orchestrator.Compensate | git-release-notifier-be/src/modules/saga/orchestrator/subscribe.saga.ts:78-111 | claims exactly when the saga is open; a won claim is followed by delete and mark whatever the delete does; undisturbed, that is the whole effect |
| SubscribeSaga.Orchestrator.CompensateStuck | git-release-notifier-be/src/modules/saga/orchestrator/subscribe.saga.ts:65-76 | its own steps under any interference; undisturbed: a saga last written no more than `timeout` ago keeps every column, a STARTED or AWAITING_EMAIL one last written before that is COMPENSATED, exactly the PENDING rows pointed to by the latter are gone, all else is unchanged |
| SagaSweep.SweepIsExact | git-release-notifier-be/src/modules/saga/orchestrator/subscribe.saga.ts:65-93 | the statement-by-statement sweep, in whatever order the sagas were found, compensates exactly the open sagas last written before the threshold and deletes exactly the PENDING rows they point to |
| SagaSweep.SecondSweepDoesNothing | git-release-notifier-be/src/modules/saga/orchestrator/subscribe.saga.ts:65-76 | a second sweep with the same threshold finds nothing and changes nothing |
| SubscriptionService.Service.SubscribeToRepo | git-release-notifier-be/src/modules/subscriptions/services/subscription.service.ts:19-39 | refused exactly when an ACTIVE row exists at the check; after an unknown repository nothing was written; otherwise check and start, with no second check |
| SubscriptionService.Service.ConfirmSubscription | git-release-notifier-be/src/modules/subscriptions/services/subscription.service.ts:41-56 | activates the row that was found PENDING under the token; fails if it vanished in between; the error cases read the table as it was |
| SubscriptionService.Service.UnsubscribeFromRepo | git-release-notifier-be/src/modules/subscriptions/services/subscription.service.ts:58-69 | removes the row under the token, whatever its status |
| PipelineTruth.TagSoundness | git-release-notifier-be/src/modules/subscriptions/repositories/subscription.repository.ts:116-121 | in every run of both services a row's last seen tag T means that a release mail for the row's own address, repository and T was sent |
| PipelineTruth.ScanSkipsOnlyMailed | git-release-notifier-be/src/modules/subscriptions/repositories/subscription.repository.ts:105-114 | a scan that finds a tag leaves an ACTIVE subscriber out only if that mail went out |
| PipelineDue.ScanSelects | git-release-notifier-be/src/modules/subscriptions/repositories/subscription.repository.ts:105-114 | in every state a scan will notify a reader exactly when some ACTIVE row of that very repository has that address and unsubscribe token and does not show the tag |
| PipelineDue.MailedWasDue | git-release-notifier-be/src/workers/scanner/scanner.processor.ts:44-69 | in every run of both services, over either transport, each release mail sent went to the address and with the unsubscribe token of a row that was ACTIVE, of that repository, and did not show the tag, when a scan read it |
| PipelineDue.OrderedWasDue | git-release-notifier-be/src/workers/scanner/scanner.processor.ts:44-69 | the same of every release order published, in a handler's hands, or answered over gRPC |
| PipelineDue.EachReaderOnce | git-release-notifier-be/src/workers/scanner/scanner.processor.ts:56-66 | a scan orders at most one mail for each reader it found and none for anybody else, and what it has left is exactly the others |
| PipelineTags.TagChangesByDelivery | git-release-notifier-be/src/workers/delivered/delivered.consumer.ts:23-48 | in every state of both services a row's tag changes exactly when a delivered event, or a SENT or DUPLICATE answer, for its own address and repository and with another tag is taken up |
| PipelineTags.TagIsLastTold | git-release-notifier-be/src/modules/subscriptions/repositories/subscription.repository.ts:116-121 | from any moment of any run, what a row shows later is the tag of the last delivery for its own pair since then, or what it showed |
| PipelineTruth.CompletionSoundness | git-release-notifier-be/src/modules/saga/orchestrator/subscribe.saga.ts:41-63 | a saga that was ever COMPLETED had a confirmation mail sent with its own address, repository and token |
| PipelineTruth.WorldStep | git-release-notifier-be/src/workers/delivered/delivered.consumer.ts:23-48 | every step of either service, and the handling of every reply, delivered event or gRPC answer, late or repeated, keeps the invariant behind these three |
| PipelineOnce.SameMailOnce | git-release-notifier-be/src/workers/scanner/scanner.processor.ts:44-69 | in timely runs of both services two mails of one kind to one address about one repository and tag, or token, are at least the done time apart, whichever transport carried them |
| PipelineRescan.RescansMailNothing | git-release-notifier-be/src/workers/scanner/scanner.processor.ts:44-69 | while a release key is done and unclaimed, no run of the whole system mails it again: re-scans, duplicates, out-of-order tag advances included |
| PipelineRescan.RescanHeals | git-release-notifier-be/src/workers/scanner/scanner.processor.ts:44-69 | from any state with the key done, a re-scan can bring a row that does not show the tag to show it, with no mail sent and nothing else of the row changed |
| ScanLocks.LocksAlongRuns | git-release-notifier-be/src/modules/queue/adapters/redis-lock.store.ts:18-42 | in every run: until its time is over a job's lock is the stored one exactly while no unlock freed it; places with one token hold one and the same job, which is doubled; stored tokens are distinct and not freed |
| ScanLocks.JobStandsIffNotFreed | git-release-notifier-be/src/modules/queue/adapters/redis-lock.store.ts:18-42 | in every run from the start, a job in time has its lock in the store if and only if no unlock freed its token; a token freed while a job has it is doubled |
| ScanLocks.LockLostOnlyByOwner | git-release-notifier-be/src/modules/queue/adapters/redis-lock.store.ts:7-13 | a live lock disappears or changes only by an unlock that carries its own token |
| ScanLocks.SuccessorsLockSurvives | git-release-notifier-be/src/workers/scanner/scanner.worker.ts:32-58 | in every run an unlock removes a standing lock that a job elsewhere relies on if and only if it carries that job's own token, as a copy of the same message does; a worker that outlived its lock leaves its successor's |
| ScanLocks.TwoOutstandingOnlyAfterExpiry | git-release-notifier-be/src/modules/queue/queue.notifier.ts:37-52 | two messages for one lock key with different tokens are outstanding together only if the older lock had run out when the younger was taken, or the older token was freed by an unlock, which takes a doubled message; with one token they are copies of one doubled job |
| ScanLocks.DoubledMessageSharesKey | git-release-notifier-be/src/workers/scanner/infrastructure/handlers.ts:36-57 | a run in which a lost publisher confirmation doubles a message and two jobs share a key under a lock time still running |
| ScanLocks.LostAckSharesKey | git-release-notifier-be/src/workers/scanner/scanner.worker.ts:31-36 | a run in which only an ack is lost after the work, with no retry at all, and two jobs share a key under a lock time still running |
| ScanWorker.Worker.ProcessMessage | git-release-notifier-be/src/workers/scanner/scanner.worker.ts:11-50 | under any interference the unlock is attempted exactly on the finished and the discarded paths; a message sent to retry or requeued keeps its lock |
| ScanWorker.Worker.Republish | git-release-notifier-be/src/workers/scanner/infrastructure/handlers.ts:21-69 | only a confirmed copy settles the message; without the confirmation the message goes back as it was, also when the copy was stored |
| ScanAccounts.EveryLockIsCarried | git-release-notifier-be/src/modules/queue/queue.notifier.ts:37-52 | in every run a live lock is carried by a job, in a process or a message, and by one only unless doubled; the exceptions are locks whose holder died or whose unlock failed |
| ScanRetries.CountsCome | git-release-notifier-be/src/workers/scanner/infrastructure/handlers.ts:21-69 | a scan message's retry count starts at 0, grows by one exactly when a worker's copy gets into the retry queue, and is the same after every other step |
| ScanRetries.RetriesAreBounded | git-release-notifier-be/src/workers/scanner/infrastructure/handlers.ts:21-69 | in every run no scan message was retried more than MAX_RETRIES times, and one that fails again then is discarded with no copy |
| LockStore.TtlCoversWork | git-release-notifier-be/src/modules/queue/adapters/redis-lock.store.ts:50-56 | the lock time of a batch is the least that leaves the safety buffer to every worker that does the batch one repository after the other within the per-repository and per-mail limits |
| ScanAccounts.LockedIffSomeJobStands | git-release-notifier-be/src/modules/queue/queue.notifier.ts:37-52 | in every run a key is locked if and only if some job for it, still in time, was not freed, or its lock was left to expire by a failed unlock or a holder that died |
| ScanAccounts.AttemptWinsIffAllFreed | git-release-notifier-be/src/modules/queue/adapters/redis-lock.store.ts:18-32 | a producer's attempt on a key wins if and only if every job for the key that is still in time was freed and no lock was left to expire |
| ScanProducer.Chunk | git-release-notifier-be/src/modules/queue/queue.notifier.ts:10-18 | the counting loop computes the chunks that ChunksCover characterises |
| ScanProducer.ChunksCover | git-release-notifier-be/src/modules/queue/queue.notifier.ts:10-18 | chunks concatenate to the list, all but the last are full, the last is not empty |
| ScanProducer.BatchesCoverSortedList | git-release-notifier-be/src/modules/queue/queue.notifier.ts:26-35 | the batches of a call concatenate to the sorted input, a permutation of it, cut at SCAN_BATCH_SIZE |
| ScanProducer.ScanJobProducer.AddScanJobs | git-release-notifier-be/src/modules/queue/queue.notifier.ts:26-52 | with anybody free to run at its awaits, its own steps are per batch a lost lock, a won lock and its message, or a won lock given back; payloads carry the batch, its key and its token; tokens are new; a batch is taken up only if the lock seen at the start has fallen |
| ScanProducer.CallAccounts | git-release-notifier-be/src/modules/queue/queue.notifier.ts:37-52 | whoever interferes, at every later moment: a live lock with a token of the call belongs to a batch whose job went out and is carried by exactly one job, unless abandoned or doubled; tokens of other batches are gone for good |
| ScanProducer.PermutedCallSendsNothing | git-release-notifier-be/src/modules/queue/queue.notifier.ts:26-52 | whoever interferes, a call on any permutation of a list sends nothing if the locks that stood at its start stand at its end |
| ScanProducer.OutstandingStands | git-release-notifier-be/src/modules/queue/queue.notifier.ts:37-52 | the lock of a job that is still there and in time has stood since it was seen if and only if no unlock freed it |
| ScanProducer.QuietCallChangesNothing | git-release-notifier-be/src/modules/queue/queue.notifier.ts:26-52 | when others only let time pass, a call on a permutation of a list whose locks are live leaves lock store and queue as they were |
| ScanProducer.QueuedLocksLive | git-release-notifier-be/src/modules/queue/queue.notifier.ts:37-52 | after a call that sent everything, every batch's lock is live until its time to live has passed since the start |
| ScanProducer.ScanJobProducer.ScanTwice | git-release-notifier-be/src/modules/scheduler/service/scheduler.service.ts:45-55 | two scheduled calls in a row on permutations of one list, within the time to live: the second skips every batch, sends nothing, and leaves the lock store and the queue as the first left them |
| WorkerPool.SoundAlongRuns | git-release-notifier-be/src/workers/scanner/scanner.processor.ts:29-42 | under every interleaving items are taken in list order, each once, and every taken item is in one worker's hands, done, or failed |
| WorkerPool.PoolEnds | git-release-notifier-be/src/workers/scanner/scanner.processor.ts:29-42 | when all workers have stopped, every item was taken unless all workers failed |
| WorkerPool.NoFailureProcessesEach | git-release-notifier-be/src/workers/scanner/scanner.processor.ts:29-42 | with no failure each item is processed exactly once |
| WorkerPool.InProgressBound | git-release-notifier-be/src/workers/scanner/scanner.processor.ts:29-42 | in every run at most REPO_CONCURRENCY items are in progress, and at most as many as there are |
| WorkerPool.BoundIsReached | git-release-notifier-be/src/workers/scanner/scanner.processor.ts:40-41 | some run has REPO_CONCURRENCY items in progress, or all of them when there are fewer |
| WorkerPool.FailureCostsWorker | git-release-notifier-be/src/workers/scanner/scanner.processor.ts:32-41 | each failed item stops its worker: at most min(REPO_CONCURRENCY, n) items fail in any run, and items are left over at the end only if that many failed |
| WorkerPool.StepLowersRank | git-release-notifier-be/src/workers/scanner/scanner.processor.ts:29-42 | every turn of any worker lowers a rank, so every schedule ends |
| WorkerPool.ProcessConcurrently | git-release-notifier-be/src/workers/scanner/scanner.processor.ts:29-42 | the loops on the shared cursor, with REPO_CONCURRENCY workers or one per item if there are fewer, are under any order of turns a run of the pool |
| ReleaseCache.AnswersAgree | git-release-notifier-be/src/modules/github/decorators/cached-github.decorator.ts:12-22 | over overlapping calls and clock advances an answer given after asking is the only answer the inner client gave to that very call, for these very repositories, between its GET and its end; any other was stored less than the time to live before for a permutation of the batch |
| ReleaseCache.CacheAgrees | git-release-notifier-be/src/modules/github/decorators/cached-github.decorator.ts:12-22 | everything in the cache was given by the inner client to a call that wrote it, whether or not that call got the reply to its write |
| ReleaseCache.HitIffStoredRecently | git-release-notifier-be/src/modules/github/decorators/cached-github.decorator.ts:12-22 | in every run a GET finds a live entry if and only if a result for some permutation of the batch was stored less than the time to live ago |
| ReleaseCache.CachedGithubClient.GetLatestReleasesBatch | git-release-notifier-be/src/modules/github/decorators/cached-github.decorator.ts:12-22 | with other calls free to run at its awaits: answered from the cache exactly when the entry is there and not expired at the GET; otherwise the inner answer, once its write is confirmed; its own steps in order |
| Keys.ReleaseKeyInjective | packages/contracts/src/email-message.ts:24-26 | release keys determine address, repository and tag for colon-free address and repository and any tag |
| Keys.ConfirmationKeyInjective | packages/contracts/src/email-message.ts:28-34 | the same for confirmation keys and any token |
| Keys.KindsDisjoint | packages/contracts/src/email-message.ts:24-34 | the two kinds of keys never collide |
| Keys.SameKeyIffSameMail | packages/contracts/src/email-message.ts:24-34 | orders under their own keys share a key exactly when they ask for the same mail |
| Keys.BatchKeysIffPermutation | git-release-notifier-be/src/modules/queue/adapters/redis-lock.store.ts:44-48 | for non-empty comma-free names two batches share a lock key, and a cache key, exactly when they are permutations of each other: through sort, join, UTF-8 and base64 |
| Keys.StableFormIffPermutation | git-release-notifier-be/src/modules/github/decorators/cached-github.decorator.ts:24-28 | the encoded stable form alone already tells batches apart up to permutation |
| Keys.RepoNameShape | git-release-notifier-be/src/modules/subscriptions/dtos/subscription.dto.ts:11 | names that pass the subscribe pattern are non-empty, comma-free and colon-free |
| Strings.Base64RoundTrip | git-release-notifier-be/src/modules/queue/adapters/redis-lock.store.ts:44-48 | base64 (section 4 of RFC 4648) can be read back |
| Strings.BytesInjective | git-release-notifier-be/src/modules/queue/adapters/redis-lock.store.ts:44-48 | UTF-8 (section 3 of RFC 3629) tells strings apart |
| Codec.RoundTrip | packages/contracts/src/gen/notification/v1/notification.ts:81-154 | decode(encode(m)) is m for every request and every response, every int32 status included |
| Codec.ConcatenationMerges | packages/contracts/src/gen/notification/v1/notification.ts:100-154 | decode(encode(a) ++ encode(b)) is a overridden by the non-default fields of b |
| Codec.LastOneWins | packages/contracts/src/gen/notification/v1/notification.ts:215-255 | decoding any stream of records keeps for each field the value of its last record |
| Codec.UnknownsChangeNothing | packages/contracts/src/gen/notification/v1/notification.ts:148-151 | well-formed unknown fields, groups and wrong wire types included, may stand anywhere between the records |
| Codec.UnknownsKeepMessage | packages/contracts/src/gen/notification/v1/notification.ts:148-151 | an encoded message with unknown fields slipped in decodes to the message |
| Codec.StopsAtEndGroup | packages/contracts/src/gen/notification/v1/notification.ts:148-150 | an end-group or zero tag ends the message, whatever follows |
| Codec.EncodeIsRecords | packages/contracts/src/gen/notification/v1/notification.ts:81-98 | an encoded message is the stream of its non-default fields in order |
| Codec.EncodeInjective | packages/contracts/src/gen/notification/v1/notification.ts:215-223 | messages that encode alike are equal |
| Wire.NegativesTakeTenBytes | packages/contracts/src/gen/notification/v1/notification.ts:216-218 | a negative status is a ten-byte varint |
| Wire.SkipPayload | packages/contracts/src/gen/notification/v1/notification.ts:148-151 | skipping reads exactly the payload of a well-formed field, nested groups included |
| WireStreams.BinaryReader.PassGroup | packages/contracts/src/gen/notification/v1/notification.ts:151 | the reader's skip loop over a group terminates, never moves back, and agrees with the specification on every input |
| NotificationCodec.EncodeRequest | packages/contracts/src/gen/notification/v1/notification.ts:81-98 | appends the encoding to what the writer holds |
| NotificationCodec.EncodeResponse | packages/contracts/src/gen/notification/v1/notification.ts:215-223 | the same for a response |
| NotificationCodec.DecodeRequest | packages/contracts/src/gen/notification/v1/notification.ts:100-154 | the loop over the reader terminates on every input and returns what the decoding specification says, errors included |
| NotificationCodec.DecodeResponse | packages/contracts/src/gen/notification/v1/notification.ts:225-255 | the same for a response |
| JsonMapping.RequestRoundTrip | packages/contracts/src/gen/notification/v1/notification.ts:156-192 | fromJSON(toJSON(m)) is m for every request |
| JsonMapping.OriginalNamesRoundTrip | packages/contracts/src/gen/notification/v1/notification.ts:156-172 | a request written under the original field names reads back as well |
| JsonMapping.StatusRoundTripIff | packages/contracts/src/gen/notification/v1/notification.ts:31-61 | a status survives its JSON name exactly when it is in the enumeration; any other becomes UNRECOGNIZED |
| JsonMapping.ResponseRoundTripIff | packages/contracts/src/gen/notification/v1/notification.ts:257-273 | a response survives the JSON mappings exactly when its status is in the enumeration |

## Left out

- Clients, connections, channels, reconnect timers, prefetch, graceful shutdown: only their effect on keys, queues and rows is modelled.
- Mail rendering, HTTP routes, pages, metrics, logging, configuration, containers and the scheduler.
- The GitHub call: an arbitrary answer or failure.
- The delay of the retry queue and of the worker's rate limit: a message comes back at some time.
- A send that failed, or whose process died before the provider answered, counts as not sent; a `false` from the scan queue's `send` counts as not sent, as the producer takes it; `sendToQueue` followed by `nack` is one move.
- A handler whose channel closes while its process lives: the source lets it go on sending, confirming and publishing after the redelivery, the machine lets it vanish with its channel.
- Errors of the lock store in a producer's call, which end the call, and of the cache's GET: the machines let a holder die (`Crash`), the methods model the calls that return.
- Database errors other than a failing compensating delete: the machine lets any process stop between two steps (`Abandon`), the methods model the calls that return.
- Invalid scan payloads, delivered events and replies, which their consumers acknowledge and drop, and the events dropped after a failed tag update: in the machines an event may simply never be handled.
- NotificationDone.FailedReplyWrongIffOvertaken: giving the key back and moving the message to the retry or dead queue are one step, where the source awaits the first (notification-service/src/consumer/email.consumer.ts:193-204); a handler of the same key can come between them in the source, so the moment from which overtaking orders are counted stands for both.
- Errors of the channel itself (a send or an ack that throws) count as the death of the handler; the broker then redelivers.
- Ids and tokens are numbers and strings that are new when drawn; how UUIDs are made is not modelled.
- EmailConsumer.Handlers.DeadLetterInvalid: does not model the x-dead-reason header it adds.
- The delivered consumer, the reply consumer, the gRPC notifier and processRepo have no methods of their own: each is one statement between a receive and an ack, and is a step of the machines.
- Pipeline: subscribe requests are taken to have passed validation, so addresses hold no colon and repository names have the form of the subscribe pattern.
- ScanProducer.BatchesCoverSortedList: sorts by code point, where the source sorts by UTF-16 code unit; the two differ only when a name has a character beyond the basic plane, and no key law depends on the order chosen.
- Codec.RoundTrip: for texts of less than 2^32 bytes, what a length prefix can hold; strings stand as their bytes, so UTF-8 transcoding in the codec is not modelled.
- Wire.SkipPayload: the wire library is not in the repository; its primitives follow the Protocol Buffers encoding specification, sections "Base 128 Varints", "Message Structure" and "Last One Wins", with varints of at most ten bytes also when they are skipped.
- NotificationCodec.DecodeRequest: decodes whole buffers; the optional length argument, which no caller in the repository passes, is not modelled.
- JsonMapping.RequestRoundTrip: String() of a value that is not a string is an arbitrary function.
- What happens after an unsubscribe to orders already queued, and listing calls such as findByEmail, which read the tables and change nothing.
