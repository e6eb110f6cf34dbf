# Verification of the order saga

A Dafny model of the order-processing saga: the orchestrator, its three workers, the transactional journal and outbox,
the outbox relay, the Kafka consumer loop and the read-model projection. `dafny verify dfyconfig.toml` checks all of it.

## What is modelled

- `Domain`, `Topics`, `StateMachine`, `SagaSteps`: the message contract, routing, the transition table, and the
  orchestrator's decisions as functions of one saga row and one event. `Decisions` gives the same decisions as a table.
- `History`: folding those decisions over the events of one order. Termination, compensation and row invariants live here.
- `Tables`, `Handlers`: the `sagas`, `saga_events` and `outbox` tables as values, and what each handler run decides to write.
- `Protocol`, `Guarantees`, `Outcomes`, `Progress`: the saga as a step system over at-least-once delivery, its inductive
  invariant, and what follows for whole runs. Result events carry no command id; the invariant that makes them safe is
  that an order has one live message at a time.
- `OrchestratorRecords`, `WorkerRecords`: what the journal says, entry by entry, and when each handler answers, refuses or acts.
- `Witnesses`: the protocol driven round by round to the worlds that show bounds tight and failures real.
- `Outbox`, `System`, `SystemGuarantees`, `Conservation`, `Redelivery`: the same protocol with transport: outbox rows, several
  relays with expiring claims, partial publishes, purging, crashes, and the projector. Every system step refines a protocol
  step; `Realisation` proves the converse, that the system can do whatever the protocol can.
- `Projection`, `ReadModel`, `ViewGuarantees`: the read model as a fold, its confluence, and what views say about sagas.
- `Consumption`, `ConsumerGroup`, `Pipeline`: the consumer loop as a state machine over fetches, commits, dead letters,
  reconnects and restarts, with a fetch and the return of the handler as separate turns; several workers that exchange
  partitions; and a group in front of its handler.
- `Store`, `OrchestratorService`, `WorkerService`, `RelayService`, `ProjectorService`, `ConsumerService`: the code itself,
  as classes that write step by step and may fail at any call, proved against the functions above. `Deployment` shows that
  whatever any sequence of such runs leaves behind is a reachable state of the system.

Fault injection is built in: every repository, commit, publish and mark call of the classes may fail by an arbitrary
choice, a failed statement outside a transaction may still have taken effect, and a failed commit may have been installed.

## Assumptions

- Event ids are fresh when drawn (internal/domain/id.go:9-13).
- Handler transactions are serialised per order. The code owes this to the message key and partition ownership, not to the
  transaction options (internal/infrastructure/uow/unit_of_work.go:34). A handler still running when its partition moves
  could overlap the new owner's handler of the same order; that overlap is excluded here.
- Gateways answer anything: success, refusal, an error, any transaction id, the empty one included.
- Kafka keeps its log; any event on it may be delivered to its subscribers any number of times, in any order.
- Only the coordinator injects events from outside (internal/application/worker/coordinator.go:22-34).
- A failing batch publish may leave any part of the batch on its topics.
- Claims are atomic and the database clock never runs backwards.
- A worker fetches only messages of partitions it owns at that moment. A rebalance may come between any two turns, also
  while a handler works; it sends every reader of the group back to the committed offsets, and a worker that survives it
  keeps its buffer and the message in its handler and may still commit them.
- For what can happen, not for what must not: the relay's batch size is at least one (cmd/outbox-relay/main.go:82-85).

## Where the code differs from its documentation

- The comment on `startCompensation` (orchestrator.go:215-216) speaks of a refund whenever a later stage fails after
  approval. It is asked for if and only if the approved payment named a transaction and stock did not run out of retries
  (`Outcomes.RefundAskedExactly`). Out of retries, `retry` calls `fail` directly (orchestrator.go:197-210,
  `Witnesses.PaymentCanBeKept`); without an id, orchestrator.go:148 fails the order (`Witnesses.PaymentWithoutIdIsKept`).
- A NOTIFICATION_RESULT that carries FAILED completes the saga, yet a view that sees it before ORDER_COMPLETED stays on
  FAILED (`ReadModel.StatusAgreesInThisOrder`, `ReadModel.StatusAgreesUnlessNotificationFailed`, `Realisation.ViewCanFreeze`).
- The projector marks an event before it applies it. A run that stops in between loses the event for the view: the process
  crashed, the mark reported an error after taking effect, or the apply failed and the redelivery finds the mark. Nothing
  else loses one (`ViewGuarantees.LostExactlyByStops`, `ViewGuarantees.CompleteExactlyWithoutLosses`).
- Committed offsets are not monotone. A dead letter is committed at once, ahead of buffered messages that a later flush
  commits; and a message kept in a buffer or in a handler across a rebalance may be committed after the new owner's, or make
  the new owner's own commits the lower ones. Flushes of reconnects, full batches and intervals, and the dead letter's own
  commit, can all be the write that lowers (`ConsumerGroup.TurnLowersExactly`, `ConsumerGroup.LateReturnLowersOffset`,
  `ConsumerGroup.NewOwnerLowersOffset`).
- A flush that fails still empties the buffer (consumer.go:152-155); those offsets are committed only by a later message
  of the same partition, not retried as the log line says (`ConsumerGroup.NothingHealsButAMessage`,
  `ConsumerGroup.MessageHeals`).

## Model

| member | source | states |
|---|---|---|
| StateMachine.TableIsAcyclic | internal/application/orchestrator/state_machine.go:13-37 | No path through the transition table revisits a status: every path has at most six statuses and climbs a height function |
| Decisions.EdgesAreExactly | internal/application/orchestrator/state_machine.go:13-47 | The statuses the saga may go from and to, pair by pair, and no others |
| Decisions.AcceptsExactly | internal/application/orchestrator/orchestrator.go:111-124 | For every row and every event: a result is accepted if and only if its kind, its status and the status of the row are one of the four combinations written out |
| Decisions.RowAfter | internal/application/orchestrator/orchestrator.go:142-324 | For every acceptable result the row it leaves: a retry within the limit only counts; anything else enters a new status, written out per stage, with no retries and the status before remembered; the transaction id changes by approval alone |
| Decisions.EventAfter | internal/application/orchestrator/orchestrator.go:179-324 | For every acceptable result the one event it sends, every field of it: the command of the new status with the row's statuses and id, or the ending with where the saga came from and its metadata |
| Decisions.LoggedAfter | internal/application/orchestrator/orchestrator.go:247-315 | The status the OUT entry says the saga came from: of an ending the one it was in, of a command the one its row remembers |
| Decisions.FirstStep | internal/application/orchestrator/orchestrator.go:52-64 | Row, command and logged status of the first step, field by field |
| SagaSteps.RejectionsAreExactlyTwo | internal/application/orchestrator/orchestrator.go:101-185 | For every row and every result, a result is accepted if and only if the saga waits for that kind and the status suits the kind; otherwise it is exactly the out-of-order or the incompatible-status error. The unexpected-status, invalid-transition and no-next-step branches are unreachable |
| SagaSteps.MoveIsCoherent | internal/application/orchestrator/orchestrator.go:142-324 | Every accepted result leaves a row on an edge of the table, also where no assertTransition is called, and sends exactly one event: the command the new status waits on, with the transaction id of the row, or the terminal event that matches a terminal row |
| SagaSteps.StartAlwaysMoves | internal/application/orchestrator/orchestrator.go:52-64 | A first ORDER_CREATED always ends in PAYMENT_PENDING with one payment command |
| History.FreshIdOnlyNames | internal/application/orchestrator/orchestrator.go:294-304 | The id drawn for the outgoing event changes neither the verdict, nor the row, nor any other field of that event |
| History.CommittedRows | internal/application/orchestrator/orchestrator.go:190-324 | After any accepted history the row is in PAYMENT_PENDING, PAYMENT_APPROVED, PAYMENT_REFUND_PENDING, INVENTORY_RESERVED, COMPLETED or FAILED, (previous, current) is an edge of the table, 0 <= retries <= limit, and a pending refund holds a transaction id |
| History.RowRemembers | internal/application/orchestrator/orchestrator.go:142-230 | In every accepted history the row's retry count is the number of RETRYING results since the order entered its status, and the previous status is the one before, NOTIFIED for a completed order |
| History.BudgetFalls | internal/application/orchestrator/orchestrator.go:142-230 | Every accepted result strictly lowers a stage and retry measure that stays non-negative |
| History.HistoryIsBounded | internal/application/orchestrator/orchestrator.go:190-213 | An order accepts at most 3(M+1) results for retry limit M |
| History.StagesAreMonotone | internal/application/orchestrator/orchestrator.go:142-230 | Along any accepted history stages never go back, a refund stage is left only towards FAILED, the transaction id never changes after approval, and nothing follows a terminal row |
| History.AtMostOneApproval | internal/application/orchestrator/orchestrator.go:142-164 | An order accepts at most one approved payment |
| History.RefundIsLast | internal/application/orchestrator/orchestrator.go:171-177 | A completed refund is the last result an order accepts |
| History.TransactionComesFromApproval | internal/application/orchestrator/orchestrator.go:161-164 | A row holds no transaction id before approval, and afterwards the one the approval carried |
| History.RefundNamesThePayment | internal/application/orchestrator/orchestrator.go:217-230 | Every refund command carries the non-empty transaction id of the approved payment |
| History.RefundNeverCompletes | internal/application/orchestrator/orchestrator.go:217-243 | An order that entered the refund stage is later only refund-pending or FAILED |
| History.FailedPaymentsExplained | internal/application/orchestrator/orchestrator.go:148-156 | A FAILED order that holds a transaction id either entered the refund stage or exhausted its stock retries, and never both |
| History.RefundedExactly | internal/application/orchestrator/orchestrator.go:142-210 | Over every approved payment of every failed order: the refund stage was entered if and only if the payment named a transaction and stock did not run out of retries |
| Topics.SubscriptionsMatchResponsibilities | internal/infrastructure/kafka/topics.go:24-36 | An acting component receives an event type if and only if it is the one that acts on it; the projector receives every known type |
| Topics.RoutedReaches | internal/infrastructure/kafka/topics.go:24-36 | A message in the topic of its event's type reaches, among the acting components, exactly the one that acts on it |
| Topics.TopicsAreSegregated | internal/infrastructure/kafka/topics.go:5-36 | The topic of every event type: commands under their stage's name with .cmd, their results under the same name with .result |
| Topics.DeadLettersStaySeparate | internal/infrastructure/kafka/topics.go:53-56 | Dead letter topics of distinct topics differ and none of them is subscribed to by any component |
| Tables.JournalIsIdempotent | internal/infrastructure/persistence/postgres/event_log_repository.go:30-70 | Insert-or-ignore keeps the unique key and the prefix, and repeating the same inserts changes nothing |
| Tables.InsertIsIgnoredExactly | internal/infrastructure/persistence/postgres/event_log_repository.go:46-49 | An insert is ignored if and only if a row with the same event, component and direction exists, else it becomes the last row |
| Tables.FreshEntriesAppend | internal/infrastructure/persistence/postgres/event_log_repository.go:46-49 | Entries with new, distinct keys are all appended, in order |
| Store.Session.Save | internal/infrastructure/persistence/postgres/saga_repository.go:40-63 | Overwrites the order's row, or fails and changes nothing |
| Store.Session.Load | internal/infrastructure/persistence/postgres/saga_repository.go:65-87 | Finds exactly the stored row, distinguishes a missing row from a failed read |
| Store.Session.AppendEntry | internal/infrastructure/persistence/postgres/event_log_repository.go:30-70 | Inserts the entry unless its (event, component, direction) key exists, or fails and changes nothing |
| Store.Session.HasEntry | internal/infrastructure/persistence/postgres/event_log_repository.go:72-82 | True if and only if the component journaled the event in any direction |
| Store.Session.Enqueue | internal/infrastructure/outbox/publisher.go:30-52 | Appends one unpublished row under the event type's topic unless the event id is there already; an unknown type is an error |
| Store.Session.ClaimPending | internal/infrastructure/persistence/postgres/outbox_repository.go:84-117 | Returns, in some order, exactly the first unlocked eligible rows in id order up to the limit, and stamps those rows and no others; on an error the claim may or may not have happened |
| Store.Session.MarkPublishedBatch | internal/infrastructure/persistence/postgres/outbox_repository.go:140-152 | Sets the publication time of exactly the listed rows |
| Store.Session.PurgePublished | internal/infrastructure/persistence/postgres/outbox_repository.go:154-164 | Deletes exactly the rows published before the cut-off and returns how many |
| Store.Session.CountPending | internal/infrastructure/persistence/postgres/outbox_repository.go:119-128 | Counts the unpublished rows, or fails |
| Store.UnitOfWork.Begin | internal/infrastructure/uow/unit_of_work.go:33-43 | A transaction starts from the committed tables |
| Store.UnitOfWork.Commit | internal/infrastructure/uow/unit_of_work.go:44-52 | Commit installs all of the transaction's tables; one that reports an error installed all or nothing |
| OrchestratorService.CloneMetadata | internal/application/orchestrator/orchestrator.go:419-425 | The copy, filled key by key, equals the original |
| OrchestratorService.Service.HandleEvent | internal/application/orchestrator/orchestrator.go:66-83 | Whatever calls fail: either the three tables are unchanged or they hold the whole decided effect; success means the whole effect, a definitive error is the decided one and leaves the tables alone |
| OrchestratorService.Service.StartOrder | internal/application/orchestrator/orchestrator.go:39-64 | Duplicate, existing saga, failed read and first start, each with its own outcome |
| OrchestratorService.Service.HandleResult | internal/application/orchestrator/orchestrator.go:85-186 | Ignored type, unknown saga, duplicate and decided result, each with its own outcome |
| OrchestratorRecords.AnswersExactly | internal/application/orchestrator/orchestrator.go:39-122 | For any tables and any event, which outcome is reached: ignored, refused as a second start, refused as unknown, or committed; announcements are looked up in the journal first, results in the sagas first |
| OrchestratorRecords.WritesExactly | internal/application/orchestrator/orchestrator.go:56-58 | The row and the two journal entries of a committing run, field by field |
| OrchestratorRecords.JournalTellsStatuses | internal/application/orchestrator/orchestrator.go:326-344 | In every reachable world the i-th IN, OUT pair of an order names the statuses its saga had then: the one remembered and the one reported, the one it came from and the one it sends |
| OrchestratorService.Service.Decide | internal/application/orchestrator/orchestrator.go:111-185 | The row and tables after the decision are those of the pure step, or the run stops with the step's own error or a fault |
| OrchestratorService.Service.DecideFailed | internal/application/orchestrator/orchestrator.go:128-152 | Same, for a result that reports FAILED: completion after a notification, refund after stock with an id, failure otherwise |
| OrchestratorService.Service.GiveUp | internal/application/orchestrator/orchestrator.go:197-210 | Same, for a stage whose retries are used up |
| OrchestratorService.Service.LogEvent | internal/application/orchestrator/orchestrator.go:326-344 | One journal row with the saga's previous status and the given status, or a fault |
| OrchestratorService.Service.Advance | internal/application/orchestrator/orchestrator.go:153-169 | Same, for the advance to the next stage |
| OrchestratorService.Service.Retry | internal/application/orchestrator/orchestrator.go:188-213 | Same, for a retry within the limit or past it |
| OrchestratorService.Service.StartCompensation | internal/application/orchestrator/orchestrator.go:215-230 | Same, for the start of a refund |
| OrchestratorService.Service.Fail | internal/application/orchestrator/orchestrator.go:232-252 | Same, for the failing end |
| OrchestratorService.Service.Complete | internal/application/orchestrator/orchestrator.go:254-285 | Same, for the completing end, although the row is saved twice around the publication |
| OrchestratorService.Service.DispatchNext | internal/application/orchestrator/orchestrator.go:287-324 | Same, for the next command |
| WorkerService.EffectIsProcessed | internal/application/worker/payment.go:55-107 | A worker run on a new command is four journal inserts in order followed by one outbox insert, a run on a known command is nothing |
| WorkerRecords.WorkersRecordTruthfully | internal/application/worker/payment.go:64-163 | In every reachable world each worker entry lies in four adjacent ones that agree: the command, the question of its own operation to the gateway, the answer, and a result that is a success exactly if the answer agreed without error, FAILED exactly if it refused without one, RETRYING exactly if it reported one, with the transaction id of the answer if and only if it approves a payment |
| WorkerRecords.GatewayIsQuoted | internal/application/worker/payment.go:73-82 | The answer entry repeats what the gateway answered: the verdict and, of a payment, the transaction id, or the error alone |
| WorkerRecords.RefusesExactly | internal/application/worker/payment.go:28-53 | A worker refuses if and only if its own command has not the status it demands, or a refund names no transaction |
| WorkerRecords.ActsExactly | internal/application/worker/log.go:38-45 | A run that does not refuse acts if and only if the command is this worker's own and it has not journaled it yet |
| WorkerService.PaymentUseCase.Handle | internal/application/worker/payment.go:28-53 | All or nothing for payment and refund commands, whatever the gateway answers and whichever call fails; invalid commands are refused before any transaction |
| WorkerService.PaymentUseCase.Process | internal/application/worker/payment.go:55-107 | The ordered writes of a payment amount to the decided effect |
| WorkerService.PaymentUseCase.Refund | internal/application/worker/payment.go:109-163 | The ordered writes of a refund amount to the decided effect |
| WorkerService.InventoryUseCase.Handle | internal/application/worker/inventory.go:26-41 | All or nothing for stock commands |
| WorkerService.InventoryUseCase.Reserve | internal/application/worker/inventory.go:43-93 | The ordered writes of a reservation amount to the decided effect |
| WorkerService.NotificationUseCase.Handle | internal/application/worker/notification.go:26-41 | All or nothing for notification commands |
| WorkerService.NotificationUseCase.Notify | internal/application/worker/notification.go:43-93 | The ordered writes of a notification amount to the decided effect |
| WorkerService.AppendLog | internal/application/worker/log.go:18-36 | One journal row that copies the event's order, saga, id, type and statuses |
| WorkerService.AlreadyProcessed | internal/application/worker/log.go:38-45 | True if and only if this component journaled the event |
| Protocol.StepKeeps | internal/application/orchestrator/orchestrator.go:85-324 | The inductive invariant of the protocol (unique ids, every event explained, every ledger replayable, one token per running order) survives every delivery to any component with any gateway answer |
| Protocol.LiveResult | internal/application/orchestrator/orchestrator.go:111-122 | A result not yet journaled by the orchestrator is the order's only live message, was caused by the command sent last, and suits the stage and the kind |
| Protocol.LiveCommand | internal/application/worker/payment.go:30-48 | A command not yet journaled by its worker is the order's only live message and passes the worker's check |
| Protocol.TokenMovesOn | internal/application/orchestrator/orchestrator.go:107-170 | A committed step uses up the live message it was caused by and leaves at most the one it sends |
| Protocol.KeysAreNew | internal/infrastructure/persistence/postgres/event_log_repository.go:46-49 | In the closed system no journal insert of a committing handler is ever ignored |
| Guarantees.SingleToken | internal/application/orchestrator/orchestrator.go:85-324 | In every reachable world a running order has exactly one live message, which suits its status; any other order has none |
| Guarantees.OnlyDuplicateOrdersAreRejected | internal/application/orchestrator/orchestrator.go:46-48 | The only handler error on any delivered message is the refusal of a second ORDER_CREATED of an existing order, and exactly then |
| Guarantees.WorkersNeverReject | internal/application/worker/payment.go:28-48 | No worker rejects a command that was ever sent |
| Guarantees.LedgerAt | internal/application/orchestrator/orchestrator.go:107-170 | The i-th IN, OUT pair of an order's journal consumes the i-th event of its history and records exactly what the pure step sends for it |
| Outcomes.CauseIsUnique | internal/application/worker/payment.go:64-107 | A command has one result and a result one command, by the journal's unique key |
| Outcomes.ResultsAnswerTheLastCommand | internal/application/orchestrator/orchestrator.go:101-118 | Every accepted result was caused by the command dispatched just before it and by no other, although results carry no command id |
| Outcomes.PendingResultAnswersTheLastCommand | internal/application/orchestrator/orchestrator.go:101-118 | A result still on its way was caused by the command sent last and by no other |
| Outcomes.JournalReplays | internal/application/orchestrator/orchestrator.go:52-63 | The committed row is the fold of the pure step over the order's IN entries; IN and OUT alternate with equal counts, each OUT being what the step sends for its IN |
| Outcomes.WorkersWriteWholeBlocks | internal/application/worker/payment.go:64-107 | Every worker entry ever journaled lies in an adjacent block command, gateway request, gateway response, result |
| Outcomes.RowsAreOk | internal/application/orchestrator/orchestrator.go:190-324 | Every committed row of every reachable world satisfies the row invariant |
| Outcomes.RowsRemember | internal/application/orchestrator/orchestrator.go:142-230 | In every reachable world a committed row counts exactly the retries asked for since it entered its status, and remembers the status before |
| Outcomes.EveryOrderEnds | internal/application/orchestrator/orchestrator.go:190-213 | An order accepts at most 3(M+1) results besides its announcement and the orchestrator sends exactly one event for each of these, whatever is redelivered |
| Outcomes.ExactlyOneEnding | internal/application/orchestrator/orchestrator.go:232-285 | A saga is COMPLETED if and only if exactly one ORDER_COMPLETED and no ORDER_FAILED was ever sent, the same for FAILED, and no ending was sent while it runs |
| Outcomes.FinishedStays | internal/application/orchestrator/orchestrator.go:116-118 | No delivery changes a finished row or adds another ending |
| Outcomes.OnePaymentOneRefund | internal/application/worker/payment.go:97-107 | At most one approved payment and one completed refund are ever sent per order |
| Outcomes.RefundsMatchPayments | internal/application/worker/payment.go:36-51 | Every refund command sent carries the non-empty transaction id of an approved payment of its order, and that order never completes |
| Outcomes.RefundAskedMeansEntered | internal/application/orchestrator/orchestrator.go:217-230 | A refund command was sent for an order if and only if its saga entered the refund stage |
| Outcomes.RefundAskedExactly | internal/application/orchestrator/orchestrator.go:142-210 | In every reachable world, for every approved payment of a failed order: a refund was asked for if and only if the payment named a transaction and the last result was not a stock retry too many |
| Outcomes.TransactionsAgree | internal/application/worker/payment.go:97-107 | All non-empty transaction ids in the events of one order are equal |
| Progress.LiveDeliveryProgresses | internal/application/orchestrator/orchestrator.go:188-213 | Delivering an order's live message strictly lowers its measure |
| Progress.OtherStepsWait | internal/application/orchestrator/orchestrator.go:85-110 | Every other step leaves the order's row, live message and measure as they were |
| Progress.NoDeadlock | internal/application/orchestrator/orchestrator.go:287-324 | While an order runs, a delivery of its live message is enabled in the protocol, whatever the gateway will answer; the relays' part is in Realisation |
| Progress.EveryOrderFinishes | internal/application/orchestrator/orchestrator.go:188-213 | Any run contains at most 6(M+1)+1 deliveries of an order's live message, and once it contains as many as the order's measure the order has ended |
| Progress.CanFinish | internal/application/orchestrator/orchestrator.go:188-213 | From every reachable world every order with a saga has a run to its end, even if all gateways give the same answer |
| Witnesses.Round | internal/application/orchestrator/orchestrator.go:85-186 | The protocol can always be driven one round on: a command answered as the gateway likes, then its result taken, with exactly the row the pure step gives |
| Witnesses.BoundIsTight | internal/application/orchestrator/orchestrator.go:190-213 | For every retry limit a reachable world has an order that accepted exactly 3(M+1) results, for which exactly 3(M+1)+1 events were sent, and which completed |
| Witnesses.PaymentCanBeKept | internal/application/orchestrator/orchestrator.go:197-210 | For every retry limit a reachable world has a failed order that keeps its transaction id and never asked for a refund, because stock ran out of retries |
| Witnesses.PaymentWithoutIdIsKept | internal/application/orchestrator/orchestrator.go:148-157 | For every retry limit a reachable world has a failed order whose approved payment has no transaction id and for which no refund was asked |
| Witnesses.RefundHasItsOwnRetries | internal/application/orchestrator/orchestrator.go:217-230 | For every retry limit a reachable order uses all retries in stock, is refused, uses all retries again in the refund, and is refunded |
| Witnesses.NotificationCanFail | internal/application/orchestrator/orchestrator.go:132-137 | For every retry limit a reachable world has a completed order with a notification result that reported FAILED |
| Outbox.PickIsFirst | internal/infrastructure/persistence/postgres/outbox_repository.go:92-100 | A claim takes at most the limit, only eligible unlocked rows, never passes over a smaller id, and takes fewer only when no other is left |
| Outbox.StampTouchesClaimed | internal/infrastructure/persistence/postgres/outbox_repository.go:90-100 | A claim sets the claim time of exactly the rows it takes |
| Outbox.MarkTouchesListed | internal/infrastructure/persistence/postgres/outbox_repository.go:140-152 | A mark sets the publication time of exactly the listed rows |
| Outbox.PurgeRemovesOnlyPublished | internal/infrastructure/persistence/postgres/outbox_repository.go:154-164 | Purging keeps order and exactly the rows unpublished or published no longer ago than the retention period |
| Outbox.CyclesDrain | cmd/outbox-relay/main.go:133-211 | k cycles of a lone relay without failures publish the first k batches of unpublished rows, each once and in id order |
| Outbox.DrainBound | cmd/outbox-relay/main.go:133-211 | n rows, no claim on them in force, are drained in ceil(n/batch) cycles and not in fewer |
| Outbox.ClaimableDrain | cmd/outbox-relay/main.go:133-211 | With other claims in force: once k batches are as many rows as are unpublished at all, k cycles have published every row that could be claimed from the start |
| RelayService.Producer.PublishBatch | internal/infrastructure/kafka/producer.go:111-124 | Only messages of the batch reach the log, unchanged; success means all of them did; a failure may leave any part, and any message may be written twice |
| RelayService.Relay.RelayOnce | cmd/outbox-relay/main.go:153-211 | Every message added has the topic, key and payload of one claimed row; a cycle that succeeds has published and marked exactly what it claimed; one that fails has marked nothing, or has published all it marked |
| RelayService.Relay.Run | cmd/outbox-relay/main.go:133-150 | Over any number of cycles with any failures and any outstanding claims, a row is marked only after its message reached Kafka, no row is lost, and every message added stands in the topic of its event's type under its event's order; if no cycle fails and no claim is in force, each cycle takes the next batch off the backlog |
| RelayService.CycleRoutes | cmd/outbox-relay/main.go:182-187 | Every message one cycle adds stands in the topic of its event's type under its event's order |
| RelayService.CycleIsSafe | cmd/outbox-relay/main.go:153-211 | One cycle, whichever call failed, keeps ids, payloads and order of the rows and the published-before-marked rule |
| System.StepRefines | cmd/outbox-relay/main.go:155-211 | Every step of the whole system (deliveries, claims, partial publishes, marks, purges, crashes, projection) keeps the invariant and is a protocol step or invisible to the protocol |
| SystemGuarantees.RunRefines | internal/infrastructure/uow/unit_of_work.go:33-53 | Every run of the system has the full invariant and is, with transport forgotten, a run of the protocol |
| SystemGuarantees.NothingIsLost | internal/infrastructure/persistence/postgres/outbox_repository.go:84-117 | Every event journaled as sent is on Kafka or in an unpublished row that any relay may claim again once its claim expires |
| SystemGuarantees.PurgedRowsReachedKafka | internal/infrastructure/persistence/postgres/outbox_repository.go:154-164 | A purge deletes a row if and only if it was published longer ago than the retention period, and what it deletes had reached Kafka |
| SystemGuarantees.OneUnsentRowPerOrder | cmd/outbox-relay/main.go:164-194 | At any time an order has at most one row that never reached Kafka, so relays and batches cannot reorder a saga |
| SystemGuarantees.UnsentIsToken | cmd/outbox-relay/main.go:155-194 | A row whose event never reached Kafka holds the order's live message, or its ending |
| SystemGuarantees.ClaimsAreExclusive | internal/infrastructure/persistence/postgres/outbox_repository.go:84-100 | Two claims of one row are more than the claim timeout apart, and claims in force are pairwise disjoint |
| Conservation.OneAppendPerOut | internal/application/orchestrator/orchestrator.go:247-251 | In every reachable state the k-th OUT entry of the journal and the k-th append to the outbox are the same event; no event id is appended twice, and an append without a row had reached Kafka |
| Redelivery.RedundantChangesNothing | internal/application/worker/log.go:38-45 | Delivering an event its component already journaled succeeds and leaves the whole state as it was |
| Redelivery.RunsWithoutDuplicates | internal/application/orchestrator/orchestrator.go:346-361 | Deleting every redundant delivery from any run gives a possible run without any that ends in the same state |
| Redelivery.DeliveryIsJournaled | internal/application/orchestrator/orchestrator.go:107-109 | A delivery that is not redundant is journaled, but for a refused second ORDER_CREATED |
| Redelivery.EachEventOnce | internal/application/orchestrator/orchestrator.go:346-361 | In a run without redundant deliveries no event reaches a handler twice, but for refused second ORDER_CREATED events |
| Realisation.Drain | cmd/outbox-relay/main.go:133-211 | From any reachable state, whatever relays hold, cycles of one relay bring every event to Kafka and change nothing the protocol sees |
| Realisation.EveryWorldHappens | cmd/outbox-relay/main.go:133-211 | Every world the protocol can reach is the view of a reachable state of the system in which everything was published |
| Realisation.WorldsAreExactlyViews | internal/infrastructure/uow/unit_of_work.go:33-53 | The worlds the protocol can reach are exactly the views of the reachable states of the system |
| Realisation.EveryOrderCanFinish | internal/application/orchestrator/orchestrator.go:188-213 | From any reachable state of the system every order with a saga can be brought to its end by claims, publishes, marks and deliveries |
| Realisation.ViewCanFreeze | internal/infrastructure/persistence/postgres_read/order_view_repository.go:43-45 | A reachable state in which a view shows FAILED over an order that completed |
| Realisation.MessagesTravel | cmd/outbox-relay/main.go:155-194 | Reachable states with a live command on Kafka, and with a live result in a row that never reached Kafka |
| Projection.ViewFields | internal/infrastructure/persistence/postgres_read/order_view_repository.go:39-56 | Flags, transaction id, terminality and timeline of a view as properties of the set of applied events |
| Projection.TerminalStatusIsFinal | internal/infrastructure/persistence/postgres_read/order_view_repository.go:43-48 | A terminal view status never changes |
| Projection.RunningViewFollows | internal/infrastructure/persistence/postgres_read/order_view_repository.go:43-48 | As long as no terminal status came, the view shows the status and type of the event applied last |
| Projection.FirstTerminalDecides | internal/infrastructure/persistence/postgres_read/order_view_repository.go:43-48 | The first event with a terminal status decides the status and the type shown for ever |
| Projection.LastTransactionShows | internal/infrastructure/persistence/postgres_read/order_view_repository.go:52 | The transaction id shown is the one named last; an event without one changes nothing |
| Projection.OrderDoesNotMatter | internal/infrastructure/persistence/postgres_read/order_view_repository.go:32-56 | Any permutation of the same events gives the same flags, transaction id and timeline multiset, and the same status when terminal statuses agree |
| ReadModel.StepFlags | internal/application/orchestrator/orchestrator.go:132-151 | The event an accepted result leads to carries notification_error exactly when the order completes without a confirmed notification, and payment_refund_failed exactly when it fails without a confirmed refund |
| ReadModel.EndingTellsWhy | internal/application/orchestrator/orchestrator.go:148-213 | The one ending of a finished order says payment_refunded exactly after a confirmed refund and retry_limit_exceeded exactly after one retry too many, and if a refund was asked for it names the transaction in the saga row |
| ReadModel.TerminalStatuses | internal/application/orchestrator/orchestrator.go:132-137 | The only terminal statuses among the events of a finished order are the saga's own, and FAILED on a notification result of a completed order |
| ReadModel.CompletedStatus | internal/application/orchestrator/orchestrator.go:273-281 | Only an order whose saga is COMPLETED has an event that says COMPLETED |
| ReadModel.FlagsOnlyAtTheEnd | internal/application/orchestrator/orchestrator.go:132-151 | The two flags are raised only on events of orders that ended that way |
| ReadModel.ViewOfFinishedOrder | internal/infrastructure/persistence/postgres_read/order_view_repository.go:29-56 | For a finished order, in any arrival order, the view holds the saga's transaction id, is terminal, and its flags say exactly how the order ended |
| ReadModel.StatusAgreesUnlessNotificationFailed | internal/infrastructure/persistence/postgres_read/order_view_repository.go:43-45 | The view status equals the saga's under every arrival order if and only if no notification result reported FAILED |
| ReadModel.StatusAgreesInThisOrder | internal/infrastructure/persistence/postgres_read/order_view_repository.go:43-45 | For one given arrival order of the events of a finished order: the view status equals the saga's if and only if ORDER_COMPLETED comes before every notification result that reported FAILED |
| ProjectorService.OrderViewRepository.ApplyEvent | internal/infrastructure/persistence/postgres_read/order_view_repository.go:26-72 | The column-by-column upsert is the fold step; on an error it happened or it did not |
| ProjectorService.OrderViewRepository.MarkProcessed | internal/infrastructure/persistence/postgres_read/order_view_repository.go:74-84 | Inserts the id and tells whether it was new |
| ProjectorService.Projector.HandleEvent | internal/application/projector/projector.go:21-32 | A new event is applied once, a known one changes nothing, a failure may leave nothing, the mark alone, or both |
| ViewGuarantees.ViewsTellTheTruth | internal/infrastructure/persistence/postgres_read/order_view_repository.go:43-45 | A view showing COMPLETED means the saga is COMPLETED; one showing FAILED over a COMPLETED saga means a notification result reported FAILED |
| ViewGuarantees.EventsAppearOnce | internal/application/projector/projector.go:23-32 | An event id occurs at most once in all timelines together |
| ViewGuarantees.ViewsShow | internal/infrastructure/persistence/postgres_read/order_view_repository.go:39-56 | In every reachable state a view shows status and type of its last event while none was terminal, then of the first terminal one, and the transaction id named last |
| ViewGuarantees.TerminalViewsStay | internal/infrastructure/persistence/postgres_read/order_view_repository.go:43-56 | No step changes a terminal view status or shortens a timeline |
| ViewGuarantees.CompleteViewsAgree | internal/infrastructure/persistence/postgres_read/order_view_repository.go:39-56 | In the system: a view that received all events of a finished order agrees with the saga |
| ViewGuarantees.OnlyStopsLose | internal/application/projector/projector.go:24-31 | Over every step of the system: an event is lost to the views if and only if a projector run stops between marking and applying it |
| ViewGuarantees.LostExactlyByStops | internal/application/projector/projector.go:24-31 | Over every run: an event on Kafka is lost to the views if and only if at some point a projector run stopped between marking and applying it |
| ViewGuarantees.MarkedIsShownOrLost | internal/application/projector/projector.go:24-31 | A marked event is being applied, is in its order's timeline, or was lost when its run stopped |
| ViewGuarantees.CompleteExactlyWithoutLosses | internal/application/projector/projector.go:24-31 | A view has received every event of its order if and only if each was marked, none is being applied and none was lost |
| ViewGuarantees.UnlostViewsAgree | internal/infrastructure/persistence/postgres_read/order_view_repository.go:39-56 | When every event of a finished order was marked, none is being applied and none was lost, its view agrees with the saga |
| ViewGuarantees.LostEventsStayLost | internal/application/projector/projector.go:24-31 | An event lost that way never enters a timeline again |
| Deployment.OrchestratorRunIsAStep | internal/application/orchestrator/orchestrator.go:66-83 | Whatever a faulty run of the orchestrator leaves is a reachable state that differs only in the tables and at most the one id drawn; a definitive error can only be the refusal of a second ORDER_CREATED |
| Deployment.WorkerRunIsAStep | internal/application/worker/payment.go:26-53 | The same for a worker, which never fails definitively |
| Deployment.RelayCycleIsARun | cmd/outbox-relay/main.go:153-211 | Whatever a faulty relay cycle leaves is a reachable state that differs only in rows, log, clock and claims, and every message it added is routed to its readers under its order's key |
| Deployment.ProjectorRunIsARun | internal/application/projector/projector.go:21-32 | Whatever a faulty projector run leaves is a reachable state that differs only in marks and views |
| Deployment.EveryChronicleIsReachable | internal/infrastructure/uow/unit_of_work.go:33-53 | Whatever any sequence of runs of coordinator, orchestrator, workers, relay, purge and projector leaves in the stores, faults included, is the visible part of a reachable state |
| Deployment.EveryChronicleIsHonest | internal/application/orchestrator/orchestrator.go:66-83 | In every such sequence, deliveries going by topic, a view showing COMPLETED is true, every message stands in its topic under its order's key, the orchestrator definitively rejects only second ORDER_CREATED events, and workers reject nothing |
| Consumption.NextOffsetBounds | internal/infrastructure/kafka/consumer.go:148-156 | The committed offset of a batch is one past the highest offset of each partition in it |
| Consumption.FetchTakesNext | internal/infrastructure/kafka/consumer.go:159 | A fetch takes the message at the reader's position and moves the reader on by one |
| Consumption.ResumesAtCommitted | internal/infrastructure/kafka/consumer.go:161-175 | After a reconnect or restart the buffer is empty and the next message fetched of any partition is the one at its committed offset |
| Consumption.FetchErrorEndsExactly | internal/infrastructure/kafka/consumer.go:176-187 | A retryable fetch error changes nothing; any other, or a cancelled wait, flushes and ends the worker |
| Consumption.AcceptedMessage | internal/infrastructure/kafka/consumer.go:244-256 | An accepted message waits in the buffer unless the batch is full with it or the interval is over, and then the buffer is emptied |
| Consumption.RefusedMessage | internal/infrastructure/kafka/consumer.go:190-240 | A definitive refusal becomes a dead letter under the topic's name with .dlq and the loop goes on; a refused write, another error or a missing dead letter topic stops the loop with nothing committed |
| Consumption.StepCommits | internal/infrastructure/kafka/consumer.go:147-156 | The committed offset after any turn is what the turn wrote, if it was recorded, else what it was |
| Consumption.StepTouches | internal/infrastructure/kafka/consumer.go:144-257 | A turn changes the committed offset of a partition only by a message of it, in the buffer or in hand |
| ConsumerGroup.NeverSkips | internal/infrastructure/kafka/consumer.go:144-257 | In every state several workers can reach, with rebalances between any two turns and during handlers, failed commits, dead letters, reconnects and crashes, every offset below a committed offset was accepted by a handler or is in the dead letter topic |
| ConsumerGroup.WorkersStayInStep | internal/infrastructure/kafka/consumer.go:391-413 | The commit counter is the buffer size and below the batch, and committed offsets do not pass the owner's reader unless a message was kept across a rebalance |
| ConsumerGroup.RedeliveredWasFinished | internal/infrastructure/kafka/consumer.go:161-184 | What a restart or a rebalance makes a worker read again had been finished before, but for the message in hand |
| ConsumerGroup.ReadsOnFromCommitted | internal/infrastructure/kafka/consumer.go:161-175 | In every reachable state: after a reconnect, a start or a rebalance the worker's reader stands at the committed offset of every partition, so that the next message it takes is the one there and all it had read past it is read again |
| ConsumerGroup.TurnLowersExactly | internal/infrastructure/kafka/consumer.go:144-296 | Over every turn of every worker: it lowers a committed offset if and only if what it writes is recorded and lies below, and a dead letter of the partition had been committed past it or a message of the partition was kept across a rebalance |
| ConsumerGroup.CommitsRiseUntilOvertaken | internal/infrastructure/kafka/consumer.go:144-296 | While no message of a partition was dead-lettered and none was in a buffer or in a handler when a rebalance came, no step of any worker lowers its committed offset |
| ConsumerGroup.DeadLetterLowersOffset | internal/infrastructure/kafka/consumer.go:276-296 | A reachable state from which a flush takes a committed offset from 2 to 1 because of a dead letter |
| ConsumerGroup.RebalanceLowersOffset | internal/infrastructure/kafka/consumer.go:176-184 | A reachable state without dead letters from which a flush takes a committed offset from 2 to 1 because its buffer survived a rebalance |
| ConsumerGroup.LateReturnLowersOffset | internal/infrastructure/kafka/consumer.go:226-256 | A reachable state without dead letters from which the return of a handler that was running when the rebalance came takes a committed offset from 2 to 1, whether the message is accepted or becomes a dead letter |
| ConsumerGroup.NewOwnerLowersOffset | internal/infrastructure/kafka/consumer.go:226-296 | A reachable state without dead letters from which the new owner, with an empty buffer, takes a committed offset from 2 to 1, by a flush in the same pass or by the commit of a dead letter |
| ConsumerGroup.CommitCatchesUp | internal/infrastructure/kafka/consumer.go:244-256 | Of a partition nothing was kept of across a rebalance: whenever a turn writes an offset and it is recorded, whenever the messages were buffered, only dead letters remain between it and the reader |
| ConsumerGroup.MessageHeals | internal/infrastructure/kafka/consumer.go:244-256 | The message in hand, accepted with a flush due or dead-lettered, with a recorded commit brings the committed offset up to the reader |
| ConsumerGroup.NothingHealsButAMessage | internal/infrastructure/kafka/consumer.go:152-155 | With nothing of a partition held by any worker, as after a failed flush, only a fetch of one of its messages lets its committed offset move again |
| ConsumerGroup.RedeliveryIsBounded | internal/infrastructure/kafka/consumer.go:391-413 | From any rebalance on, with successful commits, no dead letters and nothing of the partition kept, a crash makes its owner repeat less than one batch besides the message in hand, whatever other workers do |
| Pipeline.CommitsNeverPassLiveEvents | internal/infrastructure/kafka/consumer.go:226-257 | With the group in front of its handler, and anything happening while a handler works, a committed offset never passes a live command or result, nor the announcement of an order without a saga |
| Pipeline.EventsAreStamped | internal/application/orchestrator/orchestrator.go:294-304 | Every event ever sent carries the current schema version and its order as its saga, and an announcement nothing but its status |
| ConsumerService.Worker.Flush | internal/infrastructure/kafka/consumer.go:147-156 | Commits the buffer and empties it, even when the commit fails |
| ConsumerService.Worker.MoveToDLQ | internal/infrastructure/kafka/consumer.go:273-296 | Moves exactly definitive errors, and only with a dead letter topic; the offset is committed at once and a failing commit is not an error |
| ConsumerService.Worker.constructor | internal/infrastructure/kafka/consumer.go:110-145 | A new worker knows only the committed offsets: it is the restarted loop |
| ConsumerService.Worker.OneMessage | internal/infrastructure/kafka/consumer.go:189-256 | Undecodable, unknown schema, handler error and success, each with the state it leads to |
| ConsumerService.Worker.OneTurn | internal/infrastructure/kafka/consumer.go:158-257 | A fetch, a fetch error, a stall or the return of the handler is one step of the state machine |
| ConsumerService.Worker.Consume | internal/infrastructure/kafka/consumer.go:110-258 | The loop with its mutable reader, message in hand, buffer and batcher is the state machine, turn by turn, until something stops it |

## Left out

- Overlapping transactions on one order under weak isolation: handlers are assumed serialised; insert-or-ignore alone
  would not exclude a racing duplicate.
- Gateway effects of a transaction that rolls back: a charge already made is not undone by the code. Committed results are
  counted, not calls.
- CreatedAt, updated_at and `last_event_at`: timestamps decide nothing. `last_event_type` is in the view but not in the
  confluence theorem, because it depends on arrival order when several events carry a terminal status.
- JSON encoding and decoding: an event either decodes to itself or not at all. Trace headers, logging, metrics, health
  checks and environment parsing are plumbing.
- The nil journal that `appendLog` and `alreadyProcessed` tolerate (internal/application/worker/log.go:23-25): the unit of
  work always supplies one, and without it nothing is deduplicated.
- `FetchPending`, single-row `MarkPublished` and `PublishRaw`: the relay no longer calls them.
- The circuit breaker and the simulated gateways: part of the arbitrary gateway answer.
- Watchdog timing and shutdown: a stall is a turn of the consumer loop that may come at any time, followed by a flush and a
  resume from the committed offsets.
- Kafka's own merging of offsets, retries and generations inside the client library: a commit writes the highest offset of
  each partition, or fails for any subset of them.
- Backoff sleeps of the relay and of the fetch retry: they delay steps and change no state.
- Autoscaler, load generator, metrics exporter, order-status command, deployment files and dashboards.
- Store.Session.ClaimPending: row locks of other sessions are an arbitrary set of skipped ids; lock waits are not modelled.
- RelayService.Relay.Run: one relay without others in between and a finite number of cycles; interleaving with other relays is
  modelled in System, where each claim, publish and mark is a step of its own.
- Progress.NoDeadlock: deliverable here means sent, on Kafka or still in the outbox; the claims and publishes in between are
  added by Realisation.EveryOrderCanFinish.
- Deployment.EveryChronicleIsReachable: runs follow one another; runs that overlap are steps of System.
- OrchestratorService.Service.HandleEvent: one transaction at a time; two services interleave only at transaction boundaries,
  in System.
- ConsumerService.Worker.Consume: fetched messages, the handler's verdict and each commit's fate are inputs of a turn; a finite
  list of turns stands for the endless loop.
- ConsumerService.Worker.OneMessage: the dead letter's write and commit, and an append and the flush it makes due, are one turn;
  what other workers do in between could as well have come before it.
