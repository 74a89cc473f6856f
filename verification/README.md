# Live todos: a model of the server's update protocol, audit log and event stream

The repository is a small Go server that keeps a todo list in PostgreSQL and shows it live in
every open browser. This project models the parts of it that carry real guarantees and proves
those guarantees with Dafny 4.11. `dafny verify dfyconfig.toml` checks everything.

## What is modelled

**Live updates.** A mutation commits and then publishes a wake-up. The bus offers it to the
16-slot channel of every open stream and drops it when a channel is full. A stream answers each
wake-up it does receive by reading the todos and the events again, in two separate queries, and
by sending a full snapshot of what they returned. `Bus` is the in-process bus as a transition system: publishers,
subscriptions, context watchers and callers of `unsubscribe` interleave at single operations
under the read-write lock. `BusProgress` shows that it cannot get stuck and how much work is
left. `MemoryBus` is the same bus as a class that updates its map of sets in place, one method
per critical section; `Bus.SubscribeSection`, `Bus.UnsubscribeSection` and `Bus.PublishLoop`
tie its contracts to the steps. `StreamLoop` is the reading side, `LiveUpdate` puts commits,
bus and streams together, `LiveConvergence` draws the conclusions for whole runs, and
`NatsUpdate`, `NatsConvergence`, `NatsRereads` and `NatsCleanup` do the same for several processes
that share a NATS broker.
`NatsBus` is the bus of one such process as a class, with the lemmas that tie what it writes to
the steps of `NatsUpdate`.

**The audit log.** `AuditLog` runs requests as concurrent transactions: row locks are held to
the end, an UPDATE or DELETE works on the latest committed row, event and job ids come from
counters that a rollback does not turn back. `AuditOrder` shows what the events of one todo look
like sorted by id, `Ledger` what the event rows say about the number of todos and about jobs.
`Handlers` and `Seeding` are the handlers and the worker as the code runs them, one at a time,
over a database of which any call may fail, also one made for the answer after the commit;
`SoloRuns` and `SeedRuns` show that both are about the same effects. `Effects`, `Tables`, `TodoBody` and
`ViewModel` hold the rows, the reads, the validation and the page data.

**Both together.** `WholeSystem` runs the transactions of `AuditLog` and the streams of
`LiveUpdate` side by side, where each commit of the one is a commit of the other, and
`WholeCluster` does so with the processes of `NatsUpdate`. `CommitLog` holds what both need.

**The event stream.** `Sse` is `writeSSE` and the loops around it over a connection that may
break in the middle of any write. `EventSource` is a parser after sections 9.2.5 and 9.2.6 of
the WHATWG HTML Living Standard, and proves what it makes of the server's output.

**Forwarding headers.** `Forwarded` is the reader of `Forwarded` and `X-Forwarded-Proto`
with a printer for the grammar of section 4 of RFC 7239. `TornValues` says what the reader makes
of quoted values that hold its separators, and `HeaderAgreement` when reader and RFC agree.

## Conventions and assumptions

- Goroutines, channels, transactions and committed states are numbered in order of creation, so
  sums over them are sums over sequences. A run is a sequence of steps; `Enabled` says when a
  step may be taken and `Next` what it does. Theorems are about all runs, or about every state
  that satisfies an invariant which all runs keep.
- A failed commit did not take place. The memory bus serves one process. The NATS broker handles
  the messages of one connection in order and delivers to each registered subscription in order;
  connections stay up.
- Generated todo ids are never used twice.
- A job attempt that stored its event is never run again: River reruns attempts that report an
  error, and `Work` reports none after the insert. A process that dies between the two, which
  would let River run the job again, is not modelled.
- A render writes any pieces of text and may fail after any of them.
- The time in the worker's report is a parameter; as RFC 3339 prints it, it holds no space.
- In `Sse` and `EventSource` a character stands for one unit of the stream; all delimiters are
  ASCII, so the statements do not depend on the encoding.
- `Bus.Event` carries the number of its publisher and its place among that publisher's
  publications, and `Sub.sent` everything a channel ever held. The code stores neither; they
  are there so that order can be stated.
- Todo lists are compared up to the order of rows with equal `created_at`.

## Model

| member | source | states |
|---|---|---|
| Bus.StepKeepsInv | internal/realtime/memory.go:23-72 | every step of any publisher, subscriber, watcher or unsubscribe caller keeps the registry exact, the lock exclusive, and each channel a suffix of an ordered history |
| Bus.ReachableInv | internal/realtime/memory.go:15-72 | every state a new bus can reach satisfies that invariant |
| Bus.RegistryRefinement | internal/realtime/memory.go:43-61 | with the write lock free, the map of sets is exactly the inserted and not yet deleted (topic, channel) pairs, and no inner set is empty |
| Bus.SendOnlyWhileRegistered | internal/realtime/memory.go:27-34 | an event enters a channel only by a publish on its topic and only while it is registered |
| Bus.SilentAfterUnsubscribe | internal/realtime/memory.go:51-61 | once unsubscribe is done, no later step of any run sends to the channel or registers it again |
| Bus.UnsubscribeReturned | internal/realtime/memory.go:50-69 | a caller gets control back only after the channel has left the registry, whichever caller ran the body |
| Bus.DeliveryOrder | internal/realtime/memory.go:27-40 | at most 16 events are queued, all delivered events were published on the topic, and each publisher's own order is kept |
| Bus.DroppedOnlyWhenFull | internal/realtime/memory.go:28-34 | a publisher leaves an event out exactly when 16 are queued in the channel, and puts it at the end otherwise |
| Bus.ReceiveTakesOldest | internal/realtime/memory.go:40 | a reader gets the oldest event it has not had |
| Bus.SubscribeSection | internal/realtime/memory.go:43-48 | the steps under the lock add up to adding the channel to its topic, with nothing else moved |
| Bus.UnsubscribeSection | internal/realtime/memory.go:54-59 | the steps under the lock add up to removing the channel, and the topic with its last channel |
| Bus.UnregisterUndoesRegister | internal/realtime/memory.go:43-59 | unsubscribing gives back the registry from before the subscription |
| Bus.PublishLoop | internal/realtime/memory.go:28-34 | visiting the registered channels in any order offers the event once to each and changes nothing else |
| BusProgress.StepDecreasesMeasure | internal/realtime/memory.go:23-72 | every step that is not new demand uses up a measure |
| BusProgress.BusCanStep | internal/realtime/memory.go:23-72 | while an operation is pending, some step of the bus itself is possible, without any reader |
| BusProgress.WorkIsBounded | internal/realtime/memory.go:23-72 | any interleaving without new demand ends within the measure |
| BusProgress.BusDrains | internal/realtime/memory.go:23-72 | from every state all pending operations complete without a single receive |
| BusProgress.QuietMeansSettled | internal/realtime/memory.go:63-69 | then ended subscriptions are out and their watchers have exited |
| MemoryBus.MemoryBus.Publish | internal/realtime/memory.go:23-36 | each registered channel is offered one event with a fresh copy of the bytes; full channels, other channels and the registry stay as they are |
| MemoryBus.MemoryBus.Subscribe | internal/realtime/memory.go:39-72 | a new empty channel joins its topic, its watcher is started, and nothing else changes |
| MemoryBus.Unsubscribe.Call | internal/realtime/memory.go:50-61 | the first call removes the channel, every later call changes nothing |
| MemoryBus.Watcher.Run | internal/realtime/memory.go:63-69 | whichever ready case it takes, the watcher exits with the channel taken out exactly once |
| StreamLoop.SnapshotsMonotone | internal/server/app.go:178-202 | successive snapshots are non-decreasing in both parts and lie in their windows |
| LiveUpdate.AppStepKeepsInv | internal/server/app.go:140-202 | every interleaving of commits, publishes and streams keeps the staleness invariant |
| LiveUpdate.WakeUpSurvives | internal/realtime/memory.go:28-34 | a wake-up on its way to a live stream is never lost before the stream takes one |
| LiveUpdate.LiveUntilEnded | internal/server/app.go:178-202 | a stream is live from its opening until its handler exits or its context ends |
| LiveConvergence.StaleHasCause | internal/server/app.go:148-202 | a live stream whose last snapshot does not hold the current todos and ten newest events has an unvisited publisher, a queued wake-up, or a round that will show them |
| LiveConvergence.Convergence | internal/server/app.go:148-202 | with nothing pending a live stream shows exactly the current todos and the ten newest events, however many wake-ups were dropped |
| LiveConvergence.SnapshotsNeverGoBack | internal/server/app.go:509-517 | in every run each snapshot of a stream shows the todos of one committed state and the ten newest events of another, the todos no newer than the events, and neither ever goes back from one snapshot to a later one |
| LiveConvergence.RereadsBounded | internal/server/app.go:178-202 | after the last commit a stream writes at most as many snapshots as it has queued wake-ups (at most 16), publishers that have not visited it, and one round |
| LiveConvergence.OneSnapshotPerWakeUp | internal/server/app.go:148-202 | a stream never writes more than one snapshot beyond the wake-ups it was sent |
| LiveConvergence.WorkDecreasesMeasure | internal/server/app.go:178-202 | every step of the remaining work strictly decreases a natural number |
| LiveConvergence.AppCanStep | internal/server/app.go:178-202 | until everything is settled some step of the remaining work is possible |
| LiveConvergence.AppWorkBounded | internal/server/app.go:178-202 | any interleaving of the remaining work ends within the measure |
| LiveConvergence.EventuallyCurrent | internal/server/app.go:140-202 | from every state, without further commits, the remaining work leads to a state in which every live stream shows the data of the last commit |
| LiveConvergence.EveryScheduleArrives | internal/server/app.go:140-202 | whatever the schedule of the remaining work: once none is left it took no more steps than the measure, and every live stream shows the data of the last commit |
| LiveConvergence.OnlyLiveRegistered | internal/realtime/memory.go:50-69 | once no work is left the registry holds exactly the channels of the live streams |
| NatsBus.NatsBus.Publish | internal/realtime/nats.go:47-52 | success means PUB and PING were written and the broker has handled both; an error leaves nothing, PUB, or both with something unhandled |
| NatsBus.NatsBus.Subscribe | internal/realtime/nats.go:55-94 | success means SUB and PING were written and the broker has handled both, with an open subscription and its watcher; an error leaves nothing, or what was written with an UNSUB after it |
| NatsBus.Subscription.Unsubscribe | internal/realtime/nats.go:78-83 | the first call closes `done` and sends UNSUB, every later call does nothing |
| NatsBus.Watcher.Run | internal/realtime/nats.go:85-91 | whichever ready case it takes, the watcher exits with exactly one UNSUB written |
| NatsBus.PublishSection | internal/realtime/nats.go:47-52 | the steps of a publisher with a due wake-up write exactly what the method writes, and nothing else moves |
| NatsBus.SubscribeSection | internal/realtime/nats.go:55-71 | the first two steps of a new stream write exactly what the method writes, on an empty channel |
| NatsBus.SubscribeReturns | internal/realtime/nats.go:71-93 | Subscribe can return exactly when the broker has answered its PING, and then the broker has the subscription |
| NatsBus.CallbackSteps | internal/realtime/nats.go:58-67 | the callback steps lead to exactly the channel contents the select allows: offered, or dropped once done is closed; nothing else moves |
| NatsBus.UnsubscribeSection | internal/realtime/nats.go:71-83 | whoever ends a subscription closes done and writes exactly what the method writes, and no run has a second UNSUB or still returns the channel after it |
| NatsUpdate.NatsStepKeepsInv | internal/realtime/nats.go:47-94 | every step of processes, connections, broker and callbacks keeps the staleness invariant |
| NatsUpdate.RegisteredBeforeSnapshot | internal/realtime/nats.go:58-75 | because Subscribe waits for its flush, a stream is registered with the broker before it reads its first snapshot |
| NatsUpdate.WakeUpSurvives | internal/realtime/nats.go:58-67 | a wake-up in a publisher, on a wire, in an inbox or in a channel is never lost before the stream takes one |
| NatsUpdate.LiveUntilEnded | internal/server/app.go:178-202 | a stream is live from its opening until its flush fails, its handler exits or its context ends |
| NatsUpdate.ConvergenceAcrossProcesses | internal/realtime/nats.go:47-94 | in every reachable state with nothing in flight an idle live stream shows the todos and the ten newest events as the last commit of any process left them |
| NatsConvergence.NatsWorkDecreasesMeasure | internal/realtime/nats.go:47-94 | every step of the remaining work of publishers, connections, broker, callbacks and streams strictly decreases a natural number |
| NatsConvergence.NatsWorkBounded | internal/realtime/nats.go:47-94 | any interleaving of the remaining work, failures and exits included, ends within the measure |
| NatsConvergence.NatsCanStep | internal/realtime/nats.go:47-94 | until everything is settled some step of the remaining work is possible, and it is no failure and no exit |
| NatsConvergence.NatsEventuallyCurrent | internal/server/app.go:140-202 | from every state, without further commits, the remaining work leads to a state in which every live stream of every process is registered and shows the last commit |
| NatsConvergence.NatsEveryScheduleArrives | internal/server/app.go:140-202 | whatever the schedule of processes, broker, callbacks and streams: once no work is left it took no more steps than the measure, and every live stream is registered and shows the last commit |
| NatsCleanup.OnlyLiveRegistered | internal/realtime/nats.go:71-94 | in every run of the cluster, once no work is left the broker has exactly the subscriptions of the live streams registered |
| NatsRereads.RereadsBounded | internal/server/app.go:178-202 | after the last commit a stream of any process writes at most as many snapshots as there are wake-ups in its channel (at most 16), in its inbox, due and on connections, and one round |
| NatsRereads.OneSnapshotPerCommit | internal/server/app.go:178-202 | in every run a stream of any process has written no more snapshots than there are committed states |
| NatsRereads.SnapshotsNeverGoBack | internal/server/app.go:509-517 | in every run each snapshot of a stream in any process shows the todos of one committed state and the ten newest events of another, the todos no newer than the events, and neither ever goes back |
| AuditLog.DbStepKeepsInv | internal/server/app.go:398-409 | every step of any transaction keeps locks exclusive, active transactions consistent with the rows they saw, and events owned one to one by commits |
| AuditLog.ReachableDb | internal/server/app.go:204-409 | every state reachable from the migrated database satisfies that invariant |
| AuditLog.OneEventPerCommit | internal/server/app.go:204-369 | in every run a committed request owns exactly the one event row it calls for, any other owns none, and every event row but the first has its request |
| AuditLog.OnlyCommitsLeaveTraces | internal/server/app.go:398-409 | in every run the tables are the write sets of the commits applied in commit order: rollbacks, missing rows and everything before a commit leave no trace |
| AuditOrder.PerTodoAudit | internal/server/app.go:216-282 | in every run, sorted by event id, the events of a created todo are created, alternating marks, at most one final deleted; the last mark is the row's done, and the row exists exactly in between |
| AuditOrder.SeededTodoAudit | internal/server/app.go:244-282 | the same for rows that came from the migration or a seed |
| AuditOrder.HistoryFollows | internal/db/todos.sql.go:31-161 | every such history is one the todo's state machine allows |
| AuditOrder.FollowedIsHistory | internal/db/todos.sql.go:31-161 | and every sequence the state machine allows has that shape |
| AuditOrder.OwnTrailGrows | internal/server/app.go:244-257 | although ids are taken before the commit, a committing transaction's event comes last in its todo's trail |
| AuditOrder.TrailIsStored | internal/server/app.go:223-255 | the stored rows decode to the actions of the trail |
| Ledger.Conservation | internal/server/app.go:216-361 | in every run the number of todos is the initial rows plus created plus seeded N minus deleted, as decoded from the stored event rows |
| Ledger.CommitSize | internal/server/app.go:217-361 | one commit changes the number of todos by what its event row announces |
| Ledger.JobRowIffEvent | internal/server/app.go:302-325 | a job row exists exactly if some stored event reads "enqueued snapshot job" with its number |
| Ledger.RetriedJobs | internal/jobs/snapshot.go:38-62 | over any attempts at most one leaves an event, which reads as processed with its job and report and has an id above that of the event that says the job was enqueued; failed attempts leave none, and the job counts as finished exactly once that attempt has also published |
| Ledger.ProcessedOnce | internal/jobs/snapshot.go:38-62 | in every run at most one stored event reads as "River job N processed", and an event that reads as N enqueued has a smaller id |
| WholeSystem.ReachableSys | internal/server/app.go:204-402 | in every run of transactions and streams together both invariants hold, the streams read exactly the committed tables, and no event row is ever changed or lost |
| WholeSystem.ShownEventsAreAudited | internal/server/app.go:509-517 | every event row that any snapshot ever showed is that of the migration or the one event of a committed request |
| WholeSystem.RequestReachesBrowsers | internal/server/app.go:140-402 | once a request has committed, the remaining work leads to a state in which every live stream shows the stored todos and that request's event, while fewer than ten newer ones are stored |
| WholeSystem.RequestsShownAtRest | internal/server/app.go:140-402 | in every run and under every schedule: where nothing is left to do, every live stream shows the stored todos and the event of every committed request with fewer than ten newer ones |
| WholeCluster.ReachableSys | internal/server/app.go:204-402 | in every run of transactions and several processes together both invariants hold, every stream reads exactly the committed tables, and no event row is ever changed or lost |
| WholeCluster.ShownEventsAreAudited | internal/server/app.go:509-517 | every event row that any snapshot of any process ever showed is that of the migration or the one event of a committed request |
| WholeCluster.RequestReachesBrowsers | internal/server/app.go:140-402 | once a request has committed in any process, the remaining work leads to a state in which every live stream of every process shows the stored todos and that request's event, while fewer than ten newer ones are stored |
| WholeCluster.RequestsShownAtRest | internal/server/app.go:140-402 | the same in every run and under every schedule, where nothing is left to do |
| Effects.TodoEventDecodes | internal/server/app.go:223-280 | an event body decodes uniquely into its action and the todo body |
| Effects.TodoEventUnique | internal/server/app.go:223-280 | two equal todo events have the same action and the same body |
| Effects.SeedEventDecodes | internal/server/app.go:355-359 | a seed event decodes to the number of rows it announced |
| Effects.EnqueuedDecodes | internal/server/app.go:316-317 | an enqueued event reads back to exactly its job number |
| Effects.ProcessedDecodes | internal/jobs/snapshot.go:44-54 | a processed event reads back to its job number and its report |
| Effects.ReportReads | internal/jobs/snapshot.go:44-52 | the total, the open and the done count and the reason read back from a report as they were |
| Effects.PulseDecodes | internal/server/app.go:331-332 | a pulse event reads back to the name of its bus |
| Handlers.CreateTodo | internal/server/app.go:204-239 | the row and its one event are stored and one publish follows, or nothing changed; a 400 exactly for an unreadable form, refused exactly by the form check; a 500 may also follow the commit when the answer fails, and a page shows the tables with the new row |
| Handlers.ToggleTodo | internal/server/app.go:241-269 | the row is flipped with its one event and one publish, or nothing changed; the answer is a page of the tables as they then are, a 404 only for an unknown id, or a 500 in either case |
| Handlers.DeleteTodo | internal/server/app.go:271-294 | the row is removed with its one event and one publish, or nothing changed; the answer is a page of the tables as they then are, a 404 only for an unknown id, or a 500 in either case |
| Handlers.EnqueueSnapshot | internal/server/app.go:296-328 | job and event are stored together, the event reads back to that job, and one publish follows, or nothing changed; a 500 may be answered in either case, a 503 exactly without a job client |
| Handlers.BroadcastPulse | internal/server/app.go:330-339 | one event and one publish, or nothing; a 500 may be answered in either case |
| Handlers.Work | internal/jobs/snapshot.go:38-62 | an attempt stores its event with the time, the current counts and the reason and succeeds even if its publish fails, or fails and stores nothing |
| Handlers.MissingShowcaseSeedItems | internal/server/app.go:377-390 | the seed items that no listed todo has, in their order |
| Handlers.MissingAppend | internal/server/app.go:383-388 | what is missing of two lists stands in their order |
| Seeding.MissingMembers | internal/server/app.go:377-390 | an item is missing exactly if it is required and not present |
| Seeding.SeedShowcase | internal/server/app.go:341-369 | all missing rows and one event are stored and one publish follows, or nothing changed; a 500 may be answered in either case |
| Seeding.SeedTwice | internal/server/app.go:341-390 | after a run every item is there and old rows are untouched; a run right after it adds no row |
| Seeding.SeedAddsNothing | internal/server/app.go:341-390 | at any time a run leaves the todos alone exactly if every item has a row, and then stores only the event that says so |
| SoloRuns.CreateAlone | internal/server/app.go:204-230 | a create that runs alone through the interleaved model leaves what the handler promises |
| SoloRuns.ToggleAlone | internal/server/app.go:241-266 | the same for a toggle |
| SoloRuns.DeleteAlone | internal/server/app.go:271-291 | the same for a delete |
| SoloRuns.EnqueueAlone | internal/server/app.go:302-325 | the same for an enqueue |
| SoloRuns.PulseAlone | internal/server/app.go:330-336 | the same for a pulse |
| SoloRuns.ProcessAlone | internal/jobs/snapshot.go:38-56 | the same for an attempt of the worker |
| SeedRuns.SeedAlone | internal/server/app.go:341-369 | the same for a seed, which inserts row by row |
| SeedRuns.CommittedSeed | internal/server/app.go:341-369 | in every run a committed seed put in exactly one open row for each item that no todo had as its body when it read the list, and no other row, and its event reads back to their number |
| TodoBody.BodyPipeline | internal/server/app.go:210-219 | the handler accepts exactly the trimmed bodies the database constraints allow, before and after their split, SQL trim leaves them as they are, and each refusal has its own exact cause |
| TodoBody.OnlySpaceGoes | internal/server/app.go:210-211 | trimming takes off only white space, by the list of the 25 Unicode characters, and leaves none at either end |
| TodoBody.SplitKeepsConstraints | internal/db/migrations/00003_split_todo_body_constraints.sql:2-11 | the split constraints reject the same rows as before |
| ViewModel.ListTodos | internal/db/todos.sql.go:124-154 | every row once, newest first |
| ViewModel.ListEvents | internal/db/todos.sql.go:99-122 | the rows of the newest events, newest first: all of them, or as many as the limit allows |
| ViewModel.ListingCounts | internal/db/todos.sql.go:12-17 | the length and the done rows of any listing are the counts of the table |
| ViewModel.BuildViewModel | internal/server/app.go:509-545 | the page lists every row of the table once, with its own body, mark and time, newest first, and the events in order; total, done and open are the numbers of its entries, of those marked done and of the others, and what CountTodos gives on the same table |
| Tables.NewestAreNewest | internal/db/todos.sql.go:92-97 | the listed event ids are descending, and all others are older |
| Tables.NewestRowsUnique | internal/db/todos.sql.go:92-97 | only one list of rows is that of the newest events |
| Sse.NormalizeIsOnePass | internal/server/app.go:464-465 | the two replacement passes equal one pass over CRLF, lone CR and LF, and leave no CR |
| Text.SplitJoin | internal/server/app.go:466 | joining the split lines gives the text back, and no line holds a line feed |
| Sse.RenderSnapshot | internal/server/app.go:438-450 | what a render wrote before it failed or the writer broke stays written, and only a full render into a writer that took all of it succeeds |
| Sse.ConcatAppend | internal/server/app.go:438-450 | the pieces of a render stand in the order in which they were written |
| Sse.WriteSSE | internal/server/app.go:460-473 | exactly the frame is written, or the prefix of it that the connection took |
| Sse.WriteSnapshotEvent | internal/server/app.go:452-458 | however many pieces a failed render produced, nothing of it is sent; a full one is sent as one frame |
| Sse.RunStream | internal/server/app.go:178-202 | the loop sends the chunks its choices ask for, cut where the connection breaks, and stops there |
| Sse.ChunksFollow | internal/server/app.go:178-202 | each wake-up asks for its snapshot and each tick for a heartbeat, in order, up to the first choice that ends the stream, and nothing after it |
| Sse.Stream | internal/server/app.go:140-176 | 500 without a flusher, 503 without a subscription, 500 after a failed first render, each with nothing streamed; otherwise the initial snapshot comes first |
| EventSource.FrameDispatches | internal/server/app.go:460-473 | one frame dispatches one event with the normalised payload, also an empty one |
| EventSource.NormalizedReadsAlike | internal/server/app.go:464-466 | normalising the line ends changes nothing about how the parser reads a text |
| EventSource.StreamRoundTrip | internal/server/app.go:178-202 | any interleaving of snapshots and heartbeats dispatches exactly the snapshots, in order |
| EventSource.PartialChunkSilent | internal/server/app.go:185-199 | an incomplete frame or comment dispatches nothing |
| EventSource.TruncatedStream | internal/server/app.go:185-199 | any prefix of the output dispatches exactly the snapshots it holds in full |
| EventSource.StreamSeen | internal/server/app.go:140-202 | the same for what the handler really wrote over a breaking connection, and nothing when it opened no stream; a first render of three panels is heard as one "snapshot" event that holds them one after the other |
| Forwarded.ForwardedProtoIsHTTPS | internal/server/security.go:62-74 | true exactly if some parameter of the first value is an https proto |
| TornValues.MisreadExact | internal/server/security.go:57-74 | of a quoted value with separators the reader takes exactly this for https: https at its start under the name proto, or a later piece printed like a declaration of its own, with no space before the closing quote |
| HeaderAgreement.ForwardedReading | internal/server/security.go:57-74 | on every printed list the reader says https exactly if the first element has a declaration before any quoted comma and without escapes, or a value misread in that way |
| HeaderAgreement.ForwardedAgreement | internal/server/security.go:57-74 | hence the only two ways to disagree with RFC 7239: all that is declared is escaped or behind a quoted comma and nothing is misread, or something is misread where nothing is declared |
| HeaderAgreement.PlainAgreement | internal/server/security.go:57-74 | with no escape, comma or semicolon quoted in the first element, and anything after it, they always agree |
| HeaderAgreement.TornOff | internal/server/security.go:63 | whatever parameter a quoted value is in, an unquoted declaration after a semicolon in it is misread |
| HeaderAgreement.CommaHides | internal/server/security.go:58 | a well-formed header that declares https, which a quoted comma hides |
| HeaderAgreement.SemicolonFakes | internal/server/security.go:63 | a well-formed header that declares no https, which a quoted semicolon fakes |
| HeaderAgreement.EscapeHides | internal/server/security.go:68 | a well-formed header that declares https, which an escape hides |
| HeaderAgreement.FirstProtoDecides | internal/server/security.go:51-60 | of a printed X-Forwarded-Proto list only the first entry decides |
| HeaderAgreement.HeadersAgreement | internal/server/security.go:47-55 | on printed headers a request counts as https exactly if it came over TLS, the first X-Forwarded-Proto entry is https, or the first Forwarded element declares https, whatever later proxies appended |

## Left out

- HTTP routing, form decoding, security header constants, health checks and logging: plumbing without state.
- Rendering: templates and browser-side swaps; what a page or a snapshot holds is said by the rows it was rendered from, not by its HTML.
- Wall-clock times and the `updated_at` trigger: no property here depends on them.
- River scheduling, pgx pooling, NATS drain and close, process start-up: library and process setup.
- Fairness: `Bus` lets any waiting operation take a free lock, so completion is shown as absence of deadlock plus a decreasing measure; a bound on how soon a stream leaves after `Shutdown` is not stated.
- Overlapping seed transactions: they may both insert an item, so no uniqueness over all seeds is stated; `SeedRuns.CommittedSeed` says what each of them puts in, `Seeding.SeedTwice` and `Seeding.SeedAddsNothing` are about runs one at a time.
- Global order of event ids: it need not be commit order, and only the order per todo is stated.
- NATS failures: a lost connection, or a client that drops messages before the callback, may lose a wake-up; the convergence of `NatsUpdate`, `NatsConvergence` and `WholeCluster` assumes neither happens.
- HeaderAgreement.ForwardedReading: the text is ASCII; the bytes above it that a quoted string may hold are left out.
- Invalid UTF-8 in a form body: Dafny strings hold characters, so it cannot be written down; a NUL character is modelled and refused by the insert.
