# Catalog verification

A Dafny model of the Catalog service: the life of a processing request, the five use cases that
change it, the PostgreSQL transactions they run in, the transactional outbox, the relay that moves
outbox rows to the broker, and the settlement of consumed messages. `dafny verify dfyconfig.toml`
checks everything.

The model has three layers, connected by lemmas.

1. **The serial Catalog** (`Lifecycle`, `Catalog`). Pure functions say what one delivery does to
   the three tables (`Handle`) and a whole run to a database (`HandleAll`). `Effects` says of the
   tables and the delivery alone what each operation writes, announces and refuses. `Runs`, `Erasure`
   and `Announcements` prove what holds over every run of deliveries, in any order, with any repeats.
2. **The transactional protocol** (`Protocol`). Any number of transactions interleave statement by
   statement under READ COMMITTED: unlocked pre-check, row lock and read, re-check, buffered writes,
   unique-index entries claimed one by one, outbox ids drawn from a sequence at insert time, commit,
   and rollback at any moment (`Abort` also stands for a crash), and commits whose acknowledgement is
   lost, so that the caller is told of a failure (`LoseAck`). Creation does its two lookups apart,
   and after a lost race reads the winner outside its rolled-back transaction. `Serializability`
   proves that every interleaving commits exactly what `HandleAll` computes over the commits in
   order, so everything proved of the serial Catalog holds of concurrent runs. `Alone` proves that a
   transaction nobody interferes with is the serial one, `Progress` deadlock freedom, `Races` what
   becomes of racing deliveries of one event, `IdOrder` when outbox ids follow commits; `Creation`,
   `Linearizability`, `LifecycleCalls` and `Rechecks` prove what callers are told.
3. **The relay and the consumers** (`Relay`, `Drains`, `Consumer`). Replicas compete for one advisory
   lock; each send is confirmed, refused, or delivered without its confirm; a replica may crash or
   lose its database session anywhere, after which a send under way may still land. `System` runs
   the relay under the writers of layer 2 and proves per-request order and at-least-once delivery end
   to end; `Story` reads the outbox in id order and rebuilds every request. `Consumer` puts the
   broker's queue in front of layer 2.

Steps that are not enabled do nothing, so every theorem about runs is about every sequence of steps.

The imperative code is modelled by objects proved to implement those layers: `OutboxRelay`
(`Relay.Drain`, `Scheduler.Tick`) implements the relay protocol, `UseCases` over the `InMemory`
adapters implements `Handle`, and `Settlement` implements the consumers' settlement step.

The clock, random ids and the fate of each send are parameters: a `Delivery` carries the id `drawn`,
the outbox message id and the time `now` of its handling.

## What turned out false

- **Creation is not linearizable** to "key first, then source". The two lookups are separate reads;
  in between, the key can be bound to another source and then the source to another key.
  `Linearizability.CreateIsNotLinearizable` is such a run. `Linearizability.CreateIsLinearizableIff`
  gives the exact condition over whole calls: a call with a fresh event and request id fails exactly
  when it is answered with what the lookup by source found and, at the first moment of the call at
  which that request was stored as returned, the key was already bound to another source.
- **Lifecycle calls are not always linearizable.** An event can be recorded after the first check.
  `Rechecks.RecheckNeedNotBeSerial` is a run in which it is recorded for one request between the two
  checks of its delivery for another: the first check would have answered with the request the event
  was recorded for, the re-check answers with the one the delivery names, and no moment of the call
  fits. `LifecycleCalls.LifecycleIsLinearizableIff` gives the exact condition over whole calls, and
  `Creation.RepliesAreSerialIff` the one for the moment of the reply. What is written is serial in
  every case.
- **Outbox ids do not follow commit order across requests.** `IdOrder.CommitOrderNeedNotBeIdOrder` is
  a run that commits id 1 before id 0, and `IdOrder.IdsFollowCommitsIff` the exact condition: no
  commit overtakes an open transaction that holds a smaller id and commits it later. Within each
  request the orders agree in every reachable state (`Serializability.InterleavingsAreSerializable`).

## Model

| member | source | states |
|---|---|---|
| Serializability.InterleavingsAreSerializable | src/application/complete-processing-request.use-case.ts:47-116 | After any interleaving of any number of transactions, with rollbacks and crashes anywhere, the committed requests, dedup records and outbox rows are those of the committed deliveries handled one at a time in commit order (no update is lost), and outbox ids follow commit order within each request |
| Serializability.ReachableInv | src/infrastructure/persistence/typeorm-processing-request.repository.ts:120-130 | In every reachable state each open transaction's locked read is still current, its claims are still free in the committed tables, no lock or unique entry is held twice, and drawn outbox ids lie above all committed ones of their request |
| Serializability.CommitIsHandle | src/infrastructure/persistence/typeorm-unit-of-work.ts:32-44 | One commit of a buffered transaction is one serial handling of its delivery |
| Progress.WaitingClimbs | src/application/complete-processing-request.use-case.ts:54-115 | A waiting holder always waits for a later kind of claim than the one it blocks: row or new row, key entry, source entry, event entry |
| Progress.WaitsAreAcyclic | src/application/create-processing-request.use-case.ts:107-118 | No chain of waits, however long, leads back to its start |
| Progress.NeverStuck | src/application/complete-processing-request.use-case.ts:54-115 | In every reachable state with an open transaction some open transaction can run its next statement, and doing so strictly shortens what it has left |
| Alone.AloneIsSerial | src/application/create-processing-request.use-case.ts:50-150 | A use case that runs alone from any moment at which nobody holds anything ends after at most ten statements with exactly the tables and the reply of the serial Catalog |
| Creation.AtMostOneCreated | src/application/create-processing-request.use-case.ts:105-149 | In every interleaving an owner gets at most one `created` per key and at most one per source |
| Creation.ReplayedIsTheCallers | src/application/create-processing-request.use-case.ts:60-92 | With a fresh event id, a `replayed` answer is a committed request of the caller's own, for the caller's source |
| Creation.ConflictIsReal | src/application/create-processing-request.use-case.ts:152-160 | A conflict is raised only if the owner's key is bound to another source in the committed table |
| Creation.DuplicateErrorsNeverEscape | src/application/create-processing-request.use-case.ts:119-147 | A lost race always finds its winner: neither duplicate error is ever rethrown to the caller |
| Creation.SuccessIsStored | src/application/create-processing-request.use-case.ts:149-149 | Whatever was reported created or answered is stored from then on, only ever moving forward |
| Creation.LosersLeaveNothing | src/infrastructure/persistence/typeorm-unit-of-work.ts:35-43 | A transaction that did not commit is not in the log of commits, whatever it was doing when it ended; with `Races.CommitsWriteTheTables` it left no row in any table |
| Races.RacingDeliveriesTakeEffectOnce | src/infrastructure/persistence/typeorm-processing-request.repository.ts:142-158 | Let two deliveries of one event, for whatever requests, both be past the re-check: however the run goes on, at most one records the event, and one that ends without recording it ended in the duplicate-event error or a rollback and has no commit; the error is given only once a winner has recorded the event |
| Races.DuplicateEventHasAWinner | src/infrastructure/persistence/typeorm-processing-request.repository.ts:142-151 | In every reachable state a transaction refused by the primary key lost to another one's commit in this run, which recorded the event |
| Races.EventIsWrittenOnce | src/infrastructure/persistence/migrations/1789953000000-CreateProcessingRequest.ts:23-29 | Of two commits carrying one event in any interleaving, at least one wrote no request, no row and no record |
| Races.CommitsWriteTheTables | src/infrastructure/persistence/typeorm-unit-of-work.ts:32-44 | In every reachable state the tables are the initial ones plus exactly what the logged commits wrote |
| Creation.RepliesAreSerialIff | src/application/fail-processing-request.use-case.ts:68-132 | In any interleaving a lifecycle reply is the serial one on the tables of that moment if and only if the event was not recorded after the first check in one of three ways: the named request is missing, the record came after the re-check, or it is for another request than the one named |
| LifecycleCalls.LifecycleIsLinearizableIff | src/application/complete-processing-request.use-case.ts:47-116 | Over whole calls, a lifecycle reply fits some moment of its call, unless it is the duplicate-event error, or the re-check found the event recorded for another request and at no moment before the record would the use case have answered with that state |
| Rechecks.RecheckAnswersTheNamed | src/application/complete-processing-request.use-case.ts:47-67 | From any quiet moment with two requests waiting there is a run in which the re-check answers with the named request although the event is recorded for the other |
| Rechecks.RecheckNeedNotBeSerial | src/application/accept-processing-request.use-case.ts:39-59 | A concrete run from the empty database whose late answer fits no moment of the call |
| Linearizability.CreateIsLinearizableIff | src/application/create-processing-request.use-case.ts:60-147 | Over whole runs, a fresh creation's reply fits some moment of its call unless, and only unless, it comes from the lookup by source and the key was already bound elsewhere at the first moment of the call at which the returned request was current |
| Linearizability.CreateIsNotLinearizable | src/application/create-processing-request.use-case.ts:75-92 | A concrete run in which a creation is answered with a stored request although at no moment of its call would the serial Catalog have answered so |
| System.DeliveryFollowsTheStory | src/infrastructure/messaging/outbox-relay.ts:63-116 | With concurrent writers, any replicas, failed sends and crashes: when a row of a request reaches the broker every earlier row of it has already, and a marked row implies all earlier ones are marked |
| System.WritersGrowTheOutbox | src/infrastructure/persistence/typeorm-unit-of-work.ts:21-25 | Although ids are drawn at insert time, no commit ever adds a row below a committed row of the same request |
| IdOrder.IdsFollowCommitsIff | src/infrastructure/persistence/typeorm-unit-of-work.ts:21-25 | Over a whole run the committed ids increase if and only if no commit of a row overtakes an open transaction that holds a smaller id and commits it later |
| IdOrder.CommitOrderNeedNotBeIdOrder | src/infrastructure/persistence/migrations/1789953100000-CreateOutbox.ts:7-15 | A run in which the first transaction to draw an id is the last to commit, so that the ids are committed as 1, 0 |
| System.NothingIsLost | src/infrastructure/messaging/outbox-relay.ts:84-115 | Every committed row is pending or has reached the broker; every committed mark belongs to a confirmed, delivered row |
| System.NothingIsInvented | src/infrastructure/messaging/outbox-relay.ts:75-93 | The broker only ever sees committed rows |
| System.AtMostOnceWithoutFaults | src/infrastructure/messaging/outbox-relay.ts:66-73 | Without crashes, failed marks or missing confirms, any number of replicas deliver each row at most once |
| Relay.StepKeepsInv | src/infrastructure/messaging/outbox-relay.ts:84-110 | Every relay step, including a send that lands after its replica lost the session and the lock, keeps delivery order, marking order, the single lock and what each open drain knows of its batch |
| Drains.DrainMarksTheFirst | src/infrastructure/messaging/outbox-relay.ts:63-116 | A drain that has the lock marks exactly the first min(pending, batch, f) rows in id order, f being the sends before the first failure, and delivers those plus the next one if the failure came after delivery; a failed mark undoes all marks |
| Drains.LockedOutDrainDoesNothing | src/infrastructure/messaging/outbox-relay.ts:71-73 | While another replica holds the lock a drain changes nothing |
| Drains.DrainsEmptyTheOutbox | src/infrastructure/messaging/outbox-relay.ts:63-116 | Without failures or new rows, ceil(n / batch) drains empty an outbox of n pending rows |
| OutboxRelay.Relay.Drain | src/infrastructure/messaging/outbox-relay.ts:63-116 | The loop over the objects is exactly the protocol's drain, with its count, its rethrow and its failure metric |
| OutboxRelay.Database.SelectPending | src/infrastructure/messaging/outbox-relay.ts:75-82 | Reads exactly the first `limit` pending rows in id order |
| OutboxRelay.Scheduler.Tick | src/infrastructure/messaging/outbox-relay.scheduler.ts:58-75 | A tick during a drain or without a relay does nothing; otherwise it is one drain, a failure reported as 0, and the guard is restored |
| Announcements.OutboxTellsTheState | src/application/fail-processing-request.use-case.ts:104-132 | In every database built by deliveries each request has exactly one creation row, one queued row iff it has an attempt and one terminal row iff it is finished; its rows rebuild status (up to the start), attempt, zip key and failure code and carry its stored owner and trace id |
| Lifecycle.ReasonDeterminesCode | src/domain/failure-reason.ts:13-22 | The published sentence determines the failure code |
| Announcements.ArchiveAgreesWithOutbox | src/application/get-owned-archive.query.ts:30-48 | An archive with key k is ready for an owner iff a COMPLETED row with that owner, request and key was announced |
| Announcements.ArchiveTellsApart | src/application/get-owned-archive.query.ts:38-47 | Not found means nothing was created under this id for this owner; not completed means it was created and no completion announced |
| Announcements.ItemAgreesWithOutbox | src/application/owned-item.ts:33-46 | An item shows a reason iff the request FAILED, and it is the announced reason |
| Announcements.ItemShowsTheRequest | src/application/owned-item.ts:33-46 | An item shows the request's own id, status, creation and update times, and the sentence written for its failure code |
| Story.RowsInIdOrderTellTheState | src/application/accept-processing-request.use-case.ts:61-84 | The same for concurrent runs: in every reachable state a request's rows taken in id order tell it exactly once and rebuild it |
| Story.ConcurrentArchiveIsAnnounced | src/application/get-owned-archive.query.ts:30-48 | In every reachable state of a concurrent run the archive read agrees with the committed outbox |
| Erasure.StartsAreErasable | src/application/start-processing-request.use-case.ts:51-87 | Deleting every start from a run whose start ids are not shared leaves the same outbox, and the same requests but for QUEUED~PROCESSING and updatedAt of those awaiting an outcome, and the starts' dedup records |
| Erasure.StartAndOutcomeCommute | src/domain/processing-request.ts:135-228 | A start and a completion or processing failure, for any requests, leave equal tables in either order |
| Erasure.StartAndCompletionCommute | src/application/start-processing-request.use-case.ts:51-87 | A start and any other event leave, in either order, the same tables up to the start, and the same as the other event alone |
| Erasure.StaleEventsAreErasable | src/domain/processing-request.ts:111-116 | Deleting every event of a stale attempt, first deliveries and redeliveries alike, changes only the dedup records of the deleted events, provided no other event carries the id of one that is stale at some moment |
| Runs.EventTakesEffectOnce | src/infrastructure/persistence/migrations/1789953000000-CreateProcessingRequest.ts:23-29 | Over a whole run an event id takes effect at most once, whatever requests it is delivered for |
| Runs.RedeliveriesAreAbsorbed | src/application/fail-processing-request.use-case.ts:68-88 | Dropping every delivery of an already handled event gives the same requests, dedup records and outbox |
| Runs.RepeatedMessageIsAnswered | src/application/accept-processing-request.use-case.ts:39-59 | The same message delivered again at any later point writes nothing and is answered with its request in whatever state that has reached |
| Runs.UpdatesAreBounded | src/domain/processing-request.ts:85-256 | Over any run each update strictly climbs a rank of at most 3, so a request is updated at most three times |
| Lifecycle.TransitionAdvances | src/domain/processing-request.ts:85-256 | Every transition keeps which facts each status carries, keeps identity fields, writes attempt, zip key and code once, strictly climbs when it changes anything, and leaves terminal requests alone |
| Lifecycle.AttemptDecides | src/domain/processing-request.ts:85-256 | Which transitions apply is decided by the attempt: an unfinished request without one can only be accepted or rejected; one with an attempt can complete or fail, and starts exactly if it is not PROCESSING yet |
| Lifecycle.UnchangedIsEquality | src/domain/processing-request.ts:123-128 | A transition returns the same object iff it returns an equal one, so object identity is value equality here |
| Catalog.HandleAllKeepsTables | src/domain/processing-request.ts:85-256 | Over any run the tables stay keyed, unique per (owner, key) and (owner, source) and consistent, requests only advance, dedup records stay and the outbox is only appended to |
| Effects.AcceptanceQueues | src/application/accept-processing-request.use-case.ts:46-85 | An unseen acceptance makes a RECEIVED request QUEUED with the id drawn for this call as its attempt, and announces that attempt under the message id drawn and the event's own time; any other status refuses it and nothing is recorded |
| Effects.OtherAttemptIsIgnored | src/domain/processing-request.ts:111-116 | A start, completion or processing failure that names another attempt than the stored one is recorded; requests and outbox stay as they were |
| Effects.StartBegins | src/domain/processing-request.ts:170-193 | A start of the current attempt makes a QUEUED request PROCESSING at the given time, every other field kept and nothing announced; on a later status it is only recorded |
| Effects.StartWithoutAttempt | src/application/start-processing-request.use-case.ts:62-86 | A start before acceptance is refused and not recorded; after a rejection it is only recorded |
| Effects.CompletionStoresItsArchive | src/application/complete-processing-request.use-case.ts:80-115 | A completion of the current attempt of a QUEUED or PROCESSING request stores, and announces in one terminal row, the very archive key it carries; restated it is only recorded; on another outcome it is refused |
| Effects.CompletionIsReadable | src/application/get-owned-archive.query.ts:30-48 | After it the owner's archive read is ready with exactly that key, and nobody else's finds the request |
| Effects.OutcomeNeedsAttempt | src/domain/processing-request.ts:195-213 | A request without an attempt refuses completions and processing failures |
| Effects.FailureFailsTheAttempt | src/application/fail-processing-request.use-case.ts:90-132 | A processing failure of the current attempt makes a QUEUED or PROCESSING request FAILED with the code the event spells out, announced with the sentence written for that code; other outcomes refuse it |
| Effects.RejectionFailsTheUpload | src/application/fail-processing-request.use-case.ts:104-132 | A validation rejection does the same to a RECEIVED request and is refused on every other status |
| Effects.CreationStoresTheCommand | src/application/create-processing-request.use-case.ts:68-150 | With a new key and a new source the stored request has the drawn id, the command's owner, e-mail, source and key, the trimmed correlation id, the clock's time and nothing else, and is announced under the event's own id |
| Effects.OnlyCreationMakesRequests | src/domain/processing-request.ts:55-83 | A request appears only through a valid creation whose key and source were new to the owner |
| Effects.KnownKeyIsReplayed | src/application/create-processing-request.use-case.ts:75-81 | A known key answers with its request if the source is the same and conflicts if not, and nothing is written |
| Effects.KnownSourceIsReplayed | src/application/create-processing-request.use-case.ts:83-92 | Under a new key a source the owner already has answers with its request, and nothing is written |
| Effects.BadInputIsRefused | src/application/complete-processing-request.use-case.ts:34-45 | A delivery is refused for the first thing wrong with it, in the order of the checks, and leaves no trace |
| Effects.BlankPartsAreRefused | src/domain/processing-request.ts:58-66 | A creation with a blank owner, e-mail or source is refused for the first of these |
| Effects.UnknownRequestIsRefused | src/application/fail-processing-request.use-case.ts:76-83 | An unseen valid event for no stored request is refused and not recorded |
| Consumer.NoMessageIsLost | src/infrastructure/rabbitmq/settle-failed-message.ts:61-108 | However handlings fail, crash and are redelivered, each message is in exactly one of ready, in flight, acked and dead-lettered; acked implies its event is recorded; the counter counts exactly the final settlements |
| Consumer.SettlementByReply | src/infrastructure/rabbitmq/settle-failed-message.ts:90-108 | A success is acked and a domain refusal or refused body dead-lettered, both counted; any other error puts the message back uncounted |
| Consumer.RejectionFollowsNoEffect | src/infrastructure/persistence/typeorm-unit-of-work.ts:32-44 | If a handling settled without an ack has committed, it was requeued because the acknowledgement of that commit was lost; dead-lettering never follows an effect |
| Consumer.RequeuedEffectIsAbsorbed | src/infrastructure/rabbitmq/settle-failed-message.ts:61-75 | A requeue after an effect does no harm: the event is recorded, and no other commit carrying it, a redelivery's included, writes anything |
| Settlement.Settler.SettleMessage | src/infrastructure/rabbitmq/settle-failed-message.ts:90-108 | Returned: acked and counted as such; a domain error or malformed body: dead-lettered and counted as such; any other error: ready again, nothing counted; in each case exactly the protocol's settlement step |
| Settlement.HandlingsAreJudgedAlike | src/infrastructure/rabbitmq/settle-failed-message.ts:37-42 | The consumer protocol judges a finished transaction as the settlement code judges what the handler returned or threw |
| UseCases.CreateProcessingRequest.Execute | src/application/create-processing-request.use-case.ts:50-150 | Leaves exactly the tables and gives exactly the reply of the serial Catalog; what is created carries the command field by field and is stored |
| UseCases.CreateProcessingRequest.Insert | src/application/create-processing-request.use-case.ts:105-149 | Whatever was committed since the lookups: writes the request, its row and its dedup record, or writes nothing and answers from the winner |
| UseCases.AcceptProcessingRequest.Execute | src/application/accept-processing-request.use-case.ts:26-86 | Leaves exactly the tables and gives exactly the reply of the serial Catalog; an unseen event for a RECEIVED request answers it QUEUED with the drawn attempt |
| UseCases.StartProcessingRequest.Execute | src/application/start-processing-request.use-case.ts:28-88 | Leaves exactly the tables and gives exactly the reply of the serial Catalog; an unseen start of the current attempt answers a QUEUED request as PROCESSING |
| UseCases.CompleteProcessingRequest.Execute | src/application/complete-processing-request.use-case.ts:31-117 | Leaves exactly the tables and gives exactly the reply of the serial Catalog; an unseen completion of the current attempt answers the request COMPLETED with the archive key it carries |
| UseCases.FailProcessingRequest.Execute | src/application/fail-processing-request.use-case.ts:50-134 | Leaves exactly the tables and gives exactly the reply of the serial Catalog; an unseen failure or rejection where its origin permits one answers the request FAILED with the code spelled out |
| InMemory.Repository.Save | src/infrastructure/in-memory-processing-request.repository.ts:23-38 | Rejects exactly a taken (owner, key), then a taken (owner, source); an absent key never collides; a rejection stores nothing |
| InMemory.Repository.FindPageByOwner | src/infrastructure/in-memory-processing-request.repository.ts:81-94 | Returns the slice of the owner's unique sorted listing |
| InMemory.Repository.FindByOwnerAndIdempotencyKey | src/infrastructure/in-memory-processing-request.repository.ts:110-119 | Finds a request of the owner with that key iff there is one |
| InMemory.Repository.FindByOwnerAndSource | src/infrastructure/in-memory-processing-request.repository.ts:121-130 | Finds a request of the owner with that source iff there is one |
| InMemory.OutboxWriter.PayloadsFor | src/infrastructure/in-memory-unit-of-work.ts:35-51 | Returns exactly the recorded rows of one kind, in order |
| InMemory.SortIsListing | src/infrastructure/in-memory-processing-request.repository.ts:132-136 | In whatever order the map yields an owner's requests, sorting them gives the one listing |
| InMemory.ListOwnedProcessingRequestsQuery.Execute | src/application/list-owned-processing-requests.query.ts:22-33 | Returns that page of the owner's listing as items, and the size of the whole listing |
| InMemory.GetOwnedArchiveQuery.Execute | src/application/get-owned-archive.query.ts:30-48 | Gives the three-way archive answer proved to agree with the outbox |
| Paging.BeforeIsStrictTotalOrder | src/infrastructure/in-memory-processing-request.repository.ts:86-92 | The comparator is a strict total order on requests with distinct ids |
| Paging.ListingIsNewestFirst | src/infrastructure/in-memory-processing-request.repository.ts:86-92 | The listing is newest first, and requests of one moment stand in code-unit order of their ids |
| Paging.SortedIsUnique | src/infrastructure/in-memory-processing-request.repository.ts:86-92 | Two sorted sequences with the same elements are the same sequence |
| Paging.PagesPartition | src/application/list-owned-processing-requests.query.ts:22-33 | Pages 1 to ceil(total / size) concatenate to the owner's sorted requests, each exactly once, and every later page is empty |
| Text.ParseCorrelationIsIdempotent | src/application/create-processing-request.use-case.ts:168-179 | A stored correlation id is 1 to 128 characters and is accepted again unchanged |
| Text.TrimCutsSpaces | src/observability/correlation-context.ts:10-16 | Trimming removes whitespace at both ends and nothing else |

## Left out

- Creation.ReplayedIsTheCallers: needs an event id no other transaction carries. A reused event id is answered with the request recorded for it, whoever owns that, as in the code.
- Linearizability.CreateIsLinearizableIff: is about calls with a fresh random request id and an event not recorded when they are answered. A recorded event is answered with its request.
- LifecycleCalls.LifecycleIsLinearizableIff: is about calls that run to their own end. One cut short by an outage is told nothing about the tables.
- A send whose confirm times out has reached the broker by then or never does; only a lost database session leaves a send that lands later.
- UseCases.CreateProcessingRequest.Execute: assumes the drawn request id is new and not empty, as a random UUID is; the in-memory map would overwrite a repeated id where PostgreSQL refuses it.
- InMemory.Repository.FindByEventId: with an empty request id in the store, which no UUID is, says only that an event recorded without a request finds none.
- The in-memory unit of work has no rollback; rollback is proved of the transactional protocol only.
- `hasEventBeenProcessed` and `findByEventId` are two steps in the lifecycle use cases, as in the code; the two reads inside PostgreSQL's `findByEventId` are one.
- The SELECT that TypeORM's `save` issues before an UPDATE, and the row mapping `toRow`/`toDomain`.
- Ids are compared as text. That a malformed UUID makes PostgreSQL raise an error rather than find nothing is not modelled.
- Id order is per UTF-16 code unit, as JavaScript compares; characters outside the basic plane, which UUIDs have none of, are not.
- In-memory maps yield their values in an arbitrary order, not in insertion order; no result depends on it.
- The row lock, the unique entries and READ COMMITTED visibility are taken from PostgreSQL's documented behaviour; SQL text, TypeORM, connection handling and migrations as code are not modelled.
- Paging while rows are being inserted, the global publish order across requests, and monotonic `updatedAt`: the code does not guarantee them.
- Consumers' JSON parsing and field checks: a message is a well-formed event, malformed JSON or an invalid payload.
- Retry back-off times, the scheduler's timer, the AMQP connection and its topology; a requeue is one step.
- HTTP controllers, DTOs, dependency wiring, health checks, logging, metrics beyond the publish-failure and consumed counters, `pendingCount` and the age gauge.
- The in-memory and RabbitMQ event publishers, which nothing injects, and the downstream services.
