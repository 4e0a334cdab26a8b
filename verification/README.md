# API Time Machine: a verified model

The repository is an event-sourced store. Commands append immutable events to per-aggregate histories under
optimistic concurrency; in the same transaction they write an outbox row and a read-model row. Background
publishers send outbox rows to a broker, a builder turns histories into snapshots, and readers replay a history
up to a version, a time or an event id, through a cache.

The project models this as one transition system (`System.dfy`) over the shared tables. Every SQL statement, broker
send and cache access is one atomic action; any number of commands, publishers, builders and readers interleave;
an action that is not enabled does nothing, so a run is any sequence of actions. The main theorems are about the
state after every run. The Go functions are also written as imperative programs against a shared database object,
with arbitrary statements of other processes between any two of their own; their contracts relate what they return
to the state they leave behind, and every state they pass through is a state of some run.

| Files | What they hold |
|---|---|
| `Domain`, `EventLog`, `Sorting`, `Sequences`, `Batches`, `Slices`, `Int64` | events, the events table and its queries, sorting, work in rounds, Go's in-place slice idioms, Go's int64 |
| `UserAggregate`, `ProductAggregate`, `OrderAggregate`, `Aggregates`, `AggregateObjects` | the aggregates as values and as mutable objects, snapshot documents, the fold |
| `Projection`, `Writers`, `Services`, `Commands` | read-model rows; the append protocol as a state machine and as a program; the service commands |
| `Delivery`, `DeliveryOnce`, `Publishing` | outbox publishers as a state machine and as a program |
| `ReplayEngine`, `LoadQuery`, `CacheKeys`, `Readers`, `Replaying`, `CachedReplay`, `SnapshotBuilding` | replay, the load query, cache keys; all replaying processes as a state machine and as programs |
| `System`, `Database` | the whole system, its runs, and the shared database object |
| `CommandTheorems`, `DeliveryTheorems`, `ReplayTheorems`, `TimeLoads` | what holds after every run |
| `Scenarios`, `SnapshotHook`, `SnapshotPastBound`, `CacheCollision`, `Duplicates` | runs that show which stronger claims fail |
| `RateLimiter`, `Diff`, `Migrate` | the rate limiter, the difference of two states, the migration runner |

Where the documentation and the code disagree, the code is followed:

- `docs/architecture/PROJECTION_ENGINE.md` says that projectors fold events. The code applies the one new event to a
  fresh aggregate. A row agrees with the fold if and only if, before the last event, the aggregate was still as new in
  every column that this event does not set (`CommandTheorems.RowAgreesWithFoldIff`); renaming a user is enough to
  blank the email of the row (`Scenarios.RowCanForget`).
- `docs/architecture/SYSTEM_ARCHITECTURE.md` says that replay starts from the latest snapshot not beyond the target.
  The code compares only a version bound; a snapshot may lie beyond a time or id bound, and then the replay is not the
  fold of the events it loads (`SnapshotPastBound.SnapshotIsPastTime`). For id bounds, and for time bounds on histories
  whose creation times do not decrease, it is that fold if and only if no snapshot is used or the last event the
  snapshot covers meets the bound (`ReplayTheorems.ReplayIsExact`). When creation times decrease, that is not enough
  (`SnapshotPastBound.LastCoveredIsNotEnough`); it suffices that every covered event meets the bound.
- `docs/architecture/SNAPSHOT_STRATEGY.md` says that the write path stores a snapshot every N events. For products and
  orders that hook does nothing; for users it stores the read-model row. The snapshots of users at a version are
  faithful in all runs if and only if the hook does not fire at or below that version, or the version is 1
  (`SnapshotHook.UserSnapshotsFaithfulIff`). The same condition decides whether replays of a user at that version are
  exact in all runs, and unbounded replays that find the head there (`SnapshotHook.ReplaysExactIff`); past it time travel
  can go wrong, and a replay that returned a name before the hook ran returns a blank one after
  (`SnapshotHook.ReplayLosesName`). Such a replay continues from the row that the hook read
  (`ReplayTheorems.ReplayContinuesRow`).
- Creation times are transaction start times and can decrease along a history (`Scenarios.TimesMayDecrease`). All
  loads of an aggregate bounded by a time are prefixes of its history if and only if they do not
  (`ReplayTheorems.TimeLoadsArePrefixes`). For the same reason the past can still change: a command that began before a
  time can commit after that time was read (`TimeLoads.OpenCommandChangesPast`). A load bounded by a time never changes
  again if and only if the clock has passed it and no open command that began by then may still commit
  (`TimeLoads.TimeLoadsSettleIff`).
- A cache key drops the time of a query that also has a version, always drops the id bound, and prints a time as an
  int64 of nanoseconds, which wraps around outside the years 1678 to 2262. Which queries share a key is stated exactly
  (`CacheKeys.KeysCoincide`). A request can name both a version and a time (`internal/temporal/query.go:12-29`), and
  any time that parses; runs show a wrong answer for each (`CacheCollision.TwoBoundsMislead`,
  `CacheCollision.DistantTimesMislead`).
- Delivery is at least once. It is once when every mark is stored, publishers do not overlap, and none stops between a
  send and its mark (`DeliveryTheorems.CleanRunsDeliverOnce`); none of the three can be dropped
  (`Duplicates.EachConditionIsNeeded`).

## Model

| member | source | states |
|---|---|---|
| CommandTheorems.HistoriesAreGapFree | internal/platform/commands.go:58-106 | after every run the committed versions of each aggregate are exactly 1..n, ids increase with versions, and at most one open command holds a pending row for the aggregate, at version n+1 |
| CommandTheorems.HistoriesAreAppendOnly | migrations/001_init.sql:1-12 | a history at any moment of a run is a prefix of the history at every later moment |
| CommandTheorems.HistoriesAreWellFormed | internal/user/service.go:95-100 | after every run the creation event is at version 1 and nowhere else, and the fold of every history succeeds at its head |
| CommandTheorems.ClosedStaysClosed | internal/user/aggregate.go:62-119 | along the versions of an aggregate the creation time is that of version 1, and deleted or cancelled never reverts |
| CommandTheorems.ClosedIffClosing | internal/user/aggregate.go:111-112 | in every run, at every version, a user or product is deleted, and an order cancelled, if and only if that is among the events up to there |
| CommandTheorems.OrdersBalance | internal/order/aggregate.go:115-121 | in every run, at every version, an order's total is the int64 sum of price times quantity over its lines |
| CommandTheorems.RowsTrackHistories | internal/projection/user.go:22-42 | a row exists exactly when the history is nonempty; version and times are those of the full fold, other columns those of the last event alone |
| CommandTheorems.LastEventShown | internal/projection/user.go:22-42 | after every run a row is the projection of the last event onto the row before it |
| CommandTheorems.RowAgreesWithFoldIff | internal/projection/catalog.go:24-45 | after every run a row equals the columns of the fold if and only if, before the last event, every column it does not set was still as new |
| CommandTheorems.StepsRefineCompareAndAppend | internal/platform/commands.go:58-106 | every action of every run leaves all histories alone or commits one command exactly as an atomic compare-and-append would |
| CommandTheorems.CommitRefines | internal/platform/commands.go:97-99 | a commit appends to one history what the atomic operation appends, and touches no other |
| CommandTheorems.SuccessIsExact | internal/platform/commands.go:70-88 | a successful command wrote exactly one row, onto a history of exactly the length it expected |
| CommandTheorems.SuccessesAreDistinct | internal/platform/commands.go:70-72 | no two successful commands on one aggregate share a version, hence none an expected version |
| CommandTheorems.RefusalIsJustified | internal/eventstore/store.go:54-59 | a refused command wrote nothing; its guards failed on the history it read, or another command committed the next version after that read |
| CommandTheorems.OutcomesAreFinal | internal/platform/commands.go:63 | an ended command never changes, and unless it committed it never writes a row |
| CommandTheorems.CommittedFits | internal/platform/commands.go:97-105 | a committed row sits where the atomic operation would have appended it, dated by its transaction's start |
| CommandTheorems.RefusedFits | internal/platform/commands.go:70-78 | a refusal is justified in any state that satisfies the invariant |
| Writers.NextInv | internal/platform/commands.go:58-106 | every statement of every interleaving keeps the append invariant |
| Writers.FreeVersionIsNext | migrations/001_init.sql:11 | a version that the unique index lets in, after a stale read, is the next version of its aggregate |
| Writers.TakenIsLostRace | internal/eventstore/store.go:54-57 | a unique violation means that another command committed that version after this one's read |
| Writers.CommitNumbers | migrations/001_init.sql:1-12 | a commit keeps every history gap-free with increasing ids |
| Writers.CommitProjects | internal/projection/catalog.go:24-45 | a commit keeps every row equal to the projection of its history |
| Writers.CommitTables | internal/eventstore/store.go:64-77 | events, outbox and rows agree after a commit |
| Commands.Append | internal/platform/commands.go:58-106 | whatever runs between its statements, success is an atomic append during the call, a refusal wrote nothing and is what the atomic operation answers during the call or reports a lost race, any other error means nothing or exactly once; without a database failure it gives up only on a payload that does not decode, or when another transaction still holds its key after all that it waited for; a stale expectation is always refused; alone, it is the atomic operation |
| Commands.Transact | internal/platform/commands.go:59-106 | the phase reached and the answer returned agree for every branch and failure point; without a failure only a key held by another transaction makes it give up |
| Commands.CheckGuards | internal/platform/commands.go:70-78 | a command passes if and only if it expects the current version, if any, and creates what is not there or changes what is; which error comes in which case |
| Commands.LatestVersion | internal/eventstore/store.go:132-143 | the version is the length that the history had at some moment during the call |
| Commands.InsertEvent | internal/eventstore/store.go:40-60 | the insert goes in, conflicts, or waits; it still waits only when all that it waited for has happened and another transaction still holds the key |
| Commands.Store | internal/eventstore/store.go:28-80 | event and outbox row are both pending afterwards, or the command has ended, for one of the same reasons |
| Commands.ApplyProjection | internal/platform/commands.go:93-95 | the row a fresh aggregate yields is the one the protocol stores; a payload that does not decode ends the command |
| Commands.Commit | internal/platform/commands.go:97-99 | a commit publishes exactly the pending event, with or without an acknowledgement, or fails and publishes nothing |
| Commands.OutcomeAnswers | internal/platform/commands.go:58-106 | what each outcome means for the committed tables |
| Commands.AnswerSequential | internal/platform/commands.go:58-106 | with nobody else at work the answer is that of compare-and-append on the old history |
| Services.RequestOf | internal/product/service.go:48-83 | every service command makes a request for its own kind of aggregate that expects what the caller expects and passes every field on; its creation flag matches its event, its payload decodes, and its total is that of its lines |
| Services.Execute | internal/user/service.go:62-125 | a service command from request to answer: a success is at the version after the expected one; whatever runs meanwhile, a caller who expects less than there was is refused with a version mismatch and nothing is written, and alone so is one who expects anything but the head |
| Services.Submit | internal/platform/commands.go:58-106 | the same for any well-formed request that decodes |
| Services.CreateOrderRequest | internal/order/service.go:51-63 | the loop computes the int64 total of the lines, and an empty currency becomes USD |
| EventLog.LatestVersionIsLength | internal/eventstore/store.go:132-143 | MAX(version) of a gap-free history is its length |
| EventLog.LoadIsMatching | internal/eventstore/store.go:97-130 | on a gap-free history the load returns the matching events in commit order |
| EventLog.LoadMembers | internal/eventstore/store.go:106-121 | the load holds exactly the aggregate's rows within every bound present, each bound included, in ascending version order |
| EventLog.BoundedLoadIsPrefix | internal/eventstore/store.go:106-121 | loads bounded by version, id or both are prefixes of the version-ordered history; so are all loads when creation times do not decrease |
| EventLog.TimeLoadsArePrefixesIff | internal/eventstore/store.go:111-115 | all loads bounded by a time are prefixes if and only if creation times do not decrease |
| EventLog.CommitOrderIsVersionOrder | migrations/001_init.sql:3-11 | within an aggregate, rows committed later have greater versions |
| EventLog.PredecessorCommitted | migrations/001_init.sql:11 | the row with the version before was committed earlier |
| LoadQuery.Build | internal/eventstore/store.go:97-119 | whatever bounds are present, each placeholder names its own argument and the clauses select exactly the aggregate's matching rows |
| LoadQuery.LoadEventsUntil | internal/eventstore/store.go:97-130 | the built query, run, sorted and scanned, returns the specified load |
| Aggregates.FoldSplit | internal/replay/engine.go:98-105 | folding a history in two parts is folding it whole |
| Aggregates.SnapshotRoundTrip | internal/replay/engine.go:84-86 | a snapshot restores the exact state onto a fresh aggregate of any id |
| Aggregates.LifecycleIsMonotone | internal/product/aggregate.go:54-102 | in a history opened by its creation event the creation time is fixed and closing is permanent |
| Aggregates.OrderTotalAgrees | internal/order/aggregate.go:88-121 | the total agrees with the lines along any history priced at its source |
| UserAggregate.RoundTrip | internal/user/aggregate.go:121-127 | marshalling and overlaying restores the state if and only if the receiver is zero in each omitted field |
| ProductAggregate.RoundTrip | internal/product/aggregate.go:104-110 | as for users, with the deleted flag omitted when false |
| OrderAggregate.RoundTrip | internal/order/aggregate.go:123-129 | as for users, with the cancelled flag omitted when false |
| UserAggregate.User.Apply | internal/user/aggregate.go:62-119 | what every event does to each field, set or unset pointers included; version and time are stamped even when the payload does not decode, which is the only failure |
| UserAggregate.User.UnmarshalSnapshot | internal/user/aggregate.go:125-127 | each field is that of the document, or kept when the document omits it |
| ProductAggregate.Product.Apply | internal/product/aggregate.go:54-102 | what every event does to each field; an empty currency of a creation or price change keeps the one there is |
| ProductAggregate.Product.UnmarshalSnapshot | internal/product/aggregate.go:108-110 | each field is that of the document, or kept when the document omits it |
| OrderAggregate.Order.Apply | internal/order/aggregate.go:62-113 | what every event does to each field and to the slice of lines; a cancellation also sets the status, an empty currency keeps the one there is |
| OrderAggregate.Order.AddItem | internal/order/aggregate.go:88-94 | the line is appended and the total recomputed |
| OrderAggregate.Order.RemoveItems | internal/order/aggregate.go:95-108 | the in-place filter keeps the other lines in order, and nil stays nil |
| OrderAggregate.Order.RecalcTotal | internal/order/aggregate.go:115-121 | the loop computes the int64 sum of the lines |
| OrderAggregate.Order.UnmarshalSnapshot | internal/order/aggregate.go:127-129 | each field is that of the document, the lines are replaced, and an omitted flag is kept |
| OrderAggregate.Total | internal/order/aggregate.go:115-121 | accumulating in int64 is truncating the exact sum |
| Int64.WrapSum | internal/order/aggregate.go:116-119 | wrapping at each addition does not change the wrapped sum |
| Int64.SameWrap | internal/cache/redis.go:58 | two instants are printed alike if and only if they are a multiple of 2^64 nanoseconds apart |
| OrderAggregate.ItemAddedMovesTotal | internal/order/aggregate.go:88-94 | adding a line moves the total by price times quantity |
| OrderAggregate.ItemRemovedMovesTotal | internal/order/aggregate.go:95-108 | removing a product moves the total by exactly its lines |
| OrderAggregate.RemovedLines | internal/order/aggregate.go:95-108 | exactly the lines of other products stay |
| OrderAggregate.EventSets | internal/order/aggregate.go:66-113 | what every event does to each field of the order as a value |
| AggregateObjects.ApplyTo | internal/replay/engine.go:16-36 | applying through the interface is applying to the aggregate behind it |
| AggregateObjects.UnmarshalInto | internal/replay/engine.go:16-21 | a snapshot of another type is refused |
| AggregateObjects.ProjectRow | internal/projection/catalog.go:70-96 | the projector's row is that of the one event on a fresh aggregate, keeping an existing creation time |
| Slices.FilterInPlace | internal/api/ratelimit.go:28-33 | filtering into the slice's own array overwrites no element before it is read |
| Slices.Append | internal/api/ratelimit.go:38 | append into spare capacity or a new array |
| Projection.RowTracksHistory | internal/projection/catalog.go:70-96 | the row left by projecting a history one event at a time |
| Projection.UserRowShows | internal/projection/user.go:22-42 | after each kind of event the user row shows what it sets and otherwise a new user, at the creation time of the row before |
| Projection.ProductRowShows | internal/projection/catalog.go:24-45 | the same for products, column by column |
| Projection.OrderRowShows | internal/projection/catalog.go:70-96 | the same for orders, column by column |
| Projection.ReadBackKeeps | internal/projection/user.go:44-57 | reading a row back loses no column; a user read back has no address and no avatar |
| Projection.RowAgreesIff | internal/projection/catalog.go:70-96 | when the row left by a history agrees with its fold, column by column for users, products and orders |
| Projection.DeletionBlanksRow | internal/projection/user.go:23-42 | deleting a user blanks name and email of the row, while the fold keeps them |
| Scenarios.RowCanForget | internal/projection/user.go:23-42 | a run after which the row has lost the email that the fold has |
| DeliveryTheorems.NoEventIsLost | internal/eventstore/store.go:64-77 | after every run events and outbox rows are in bijection, a marked row was sent, an unsent one is still queued, and only committed events are sent |
| DeliveryTheorems.DeliveriesArePrefixes | internal/worker/outbox.go:42-68 | with any publishers, lost marks and crashes, the delivered versions of an aggregate are always 1..n |
| DeliveryTheorems.FirstDeliveriesInOrder | internal/worker/outbox.go:47-67 | every delivery of a version comes after deliveries of all earlier versions |
| DeliveryTheorems.CleanRunsDeliverOnce | internal/worker/outbox.go:63-66 | without lost marks, overlaps and stops between send and mark, no event is sent twice |
| Duplicates.EachConditionIsNeeded | internal/worker/outbox.go:56-67 | a lost mark, an overlap or a stop between send and mark, each as the only such step of a run, sends an event twice |
| Delivery.BatchSize | internal/worker/outbox.go:43-49 | a batch takes a hundred unpublished rows, or all if there are fewer |
| Delivery.BatchHasSmallerIds | internal/worker/outbox.go:47-49 | however many rows the limit cuts off, a queued row with a smaller id comes earlier in the batch |
| Delivery.FreshBatchFits | internal/worker/outbox.go:47-49 | in every fresh batch the predecessor of a row was sent or stands before it |
| Delivery.StepInv | internal/worker/outbox.go:42-68 | every publisher step keeps the delivery invariant |
| Delivery.ExtendInv | internal/worker/outbox.go:42-68 | so do commits that happen while a batch is being published |
| Delivery.EarlierVersionsFirst | internal/worker/outbox.go:56-67 | delivery order follows from the order of predecessors |
| DeliveryOnce.StepOnce | internal/worker/outbox.go:56-67 | clean steps never send an event twice |
| DeliveryOnce.NextBacklog | internal/worker/outbox.go:47-49 | a batch that is sent and marked leaves exactly the rest of the sorted backlog |
| DeliveryOnce.DrainsInOrder | internal/worker/outbox.go:28-40 | n batches send the first 100n queued rows in id order; the queue is empty exactly when n is at least ceil(backlog/100) |
| Publishing.PublishBatch | internal/worker/outbox.go:42-68 | under any interference the batch is sent in order up to the failing row, and every stored mark is set; alone, nothing else is sent, and exactly the stored marks are set |
| Publishing.SendAndMark | internal/worker/outbox.go:62-66 | one row is sent, then marked unless the update is lost; nothing but this and the statements of others happens |
| Publishing.Drain | internal/worker/outbox.go:28-40 | a lone publisher sends its backlog once each, in order, in exactly ceil(n/100) ticks |
| ReplayTheorems.SnapshotsAreFaithful | internal/worker/outbox.go:126-159 | after every run a snapshot is at a committed version, restores an aggregate at that version, and below the first version at which the user hook fires is the fold of events 1..s |
| ReplayTheorems.SnapshotsAreUnique | internal/snapshot/store.go:43-53 | after every run there is one snapshot per aggregate and version at most, and a save of that version replaces it |
| ReplayTheorems.ReplayIsFullReplay | internal/replay/engine.go:71-111 | when no snapshot that the query can use may come from the user hook, a replay whose two reads are any distance apart equals the full fold of the loaded events if the covered events meet the query |
| ReplayTheorems.ReplayIsExact | internal/replay/engine.go:79-90 | under the same hypothesis, for all queries when creation times do not decrease, and for version and id bounds always, the equality holds if and only if no snapshot is used or the last covered event meets the query |
| ReplayTheorems.TimeLoadsArePrefixes | internal/eventstore/store.go:111-115 | after every run, all time-bounded loads of an aggregate are prefixes if and only if its creation times do not decrease |
| TimeLoads.TimeLoadsSettleIff | internal/eventstore/store.go:111-115 | a load at a time is the same in every continuation of a run if and only if the clock has passed the time and no open command on the aggregate that began by then may still commit |
| TimeLoads.SettledLoadsStay | internal/eventstore/store.go:97-121 | then every load with a time bound up to that time stays, whatever its other bounds |
| TimeLoads.WriteSettled | internal/platform/commands.go:58-106 | no statement of any command makes a settled time unsettled or adds an event to it |
| TimeLoads.Completes | internal/platform/commands.go:58-106 | an open command that may commit does commit when left alone, dated by its start |
| TimeLoads.OpenCommandChangesPast | migrations/001_init.sql:10 | a run in which a load at time 0, made at time 10, later finds one event more |
| ReplayTheorems.TimeTravelIsStable | internal/replay/engine.go:72-109 | for products and orders, and for users at version 1 or below the first version at which the hook fires: once version v is committed, a replay at v returns the same state, at version exactly v, in every later state |
| ReplayTheorems.ReplayContinuesRow | internal/replay/engine.go:71-111 | without any hypothesis on the hook, a replay folds the later covered events and the matching ones onto a new aggregate, or onto the read-model row as it was at some version at or beyond the first at which the user hook fires |
| ReplayTheorems.ReplayEnds | internal/replay/engine.go:107-109 | version 0 and below are not found; an unbounded replay of a nonempty history succeeds at its head, and is the fold at version 1 and below the first version at which the user hook fires |
| ReplayTheorems.HitsAnswerAReplay | internal/cache/redis.go:30-46 | in every run and for every query, a hit is the answer of a replay made earlier in the run, from the snapshot and the table of two named moments, of a query that records the same bound |
| ReplayTheorems.HitsAgreeWithReplay | internal/cache/redis.go:25-47 | when the user is not replayed for another query that records the same bound, every hit is the answer of a replay of that very query from the snapshot and the table of two earlier moments of the run |
| ReplayTheorems.SafeQueriesAreKeptApart | internal/cache/redis.go:53-61 | when the user is replayed only with single bounds, and times in the int64 range, no other query records the same bound |
| ReplayTheorems.ExpiryMisses | internal/cache/redis.go:43-45 | an expired entry is missed by exactly the queries that share its key |
| ReplayTheorems.VersionHitIsCurrentIff | internal/cache/redis.go:30-36 | when the user is not replayed for another query at that version, and no usable snapshot may come from the user hook, a hit for a version is what an uncached replay returns now if and only if it is at that version or still at the head |
| ReplayEngine.LatestIsGreatest | internal/snapshot/store.go:22-41 | the latest snapshot is one of the aggregate's, with the greatest version |
| ReplayEngine.SaveMembers | internal/snapshot/store.go:43-53 | the upsert stores its row and replaces only the row of the same version |
| ReplayEngine.SaveKeepsVersions | internal/snapshot/store.go:43-53 | a save adds its version to those with a snapshot and loses none |
| ReplayEngine.ReplayFoldsSnapshotThenMatches | internal/replay/engine.go:71-111 | what a replay computes for every query, exact or not |
| ReplayEngine.AccountsForLoadedIff | internal/replay/engine.go:92-105 | for every query, the events a replay accounts for are those it loads if and only if every event its snapshot covers meets the query |
| ReplayEngine.ReplayEqualsFullReplay | internal/replay/engine.go:78-105 | when the covered events meet the query, starting from the snapshot is invisible |
| ReplayEngine.ReplayExactOnPrefixes | internal/replay/engine.go:79-90 | for queries that select a prefix the replay is exact if and only if the last covered event meets the query |
| ReplayEngine.VersionReplay | internal/replay/engine.go:71-111 | version-bounded and unbounded replays are folds of a prefix, whatever faithful snapshot was read |
| ReplayEngine.CurrentReachesHead | internal/replay/engine.go:71-111 | an unbounded replay ends at the head even from an unfaithful snapshot |
| Readers.ActInv | internal/worker/outbox.go:126-159 | every step of builders, readers and hooks keeps snapshots and cache entries right |
| Readers.BuiltSnapshotFits | internal/worker/outbox.go:131-158 | what the builder saves is at the head of the history it loaded, and is its fold when the snapshot it started from is |
| Readers.HookRowFits | internal/user/service.go:128-141 | the row the hook reads is at or beyond the version that made it fire, and at version 1 is the fold |
| Readers.LoadedVersionIsStable | internal/replay/engine.go:92-109 | a finished version replay agrees with the history ever after |
| Readers.HitIsFillersAnswer | internal/cache/redis.go:30-46 | a hit decodes to the answer of the replay that filled it, for a query whose key records the same bound |
| Readers.VersionHitIsCurrentIff | internal/cache/redis.go:30-36 | a version hit equals an uncached replay from any snapshot below the hook if and only if it is at its version or at the head |
| CacheKeys.KeysCoincide | internal/cache/redis.go:53-61 | two replays share a key if and only if the aggregate agrees and the versions, or without versions the times modulo 2^64 nanoseconds, do, whatever colons the ids contain |
| CacheKeys.SingleBoundKeysCoincide | internal/cache/redis.go:53-61 | on queries with a single bound the key is injective but for times a multiple of 2^64 nanoseconds apart; in the int64 range it is injective |
| CacheKeys.DecimalInjective | internal/cache/redis.go:55-58 | decimal rendering of integers is injective |
| CacheCollision.TwoBoundsMislead | internal/cache/redis.go:54-59 | a run after which the cache answers version 2 with version 1, stored by a query that also had a time |
| CacheCollision.DistantTimesMislead | internal/cache/redis.go:57-59 | a run after which the cache answers a time with the state 2^64 nanoseconds earlier |
| SnapshotPastBound.SnapshotIsPastTime | internal/replay/engine.go:79-90 | a run after which the replay at a time returns version 2, and the fold of the events it loads is at version 1 |
| SnapshotPastBound.LastCoveredIsNotEnough | internal/replay/engine.go:79-90 | a run with decreasing creation times in which the last covered event meets the time and the replay still differs from the fold |
| Replaying.ReplayAggregate | internal/replay/engine.go:71-111 | under any interference the returned object is the replay of the snapshot read first and the events loaded later; without time and id bounds, below the user hook, that is the full fold |
| Replaying.Restore | internal/replay/engine.go:77-90 | the snapshot is unmarshalled unless the query names an older version |
| Replaying.ApplyLoaded | internal/replay/engine.go:98-105 | the loop skips what the snapshot covers and folds the rest in place, stopping at the first failure |
| CachedReplay.ReplayUser | internal/cache/redis.go:25-47 | a hit returns the entry and touches nothing; a miss returns a replay made during the call, which the next same query hits; alone, no other entry changes, and none is added when nothing can be stored |
| SnapshotBuilding.SnapshotOne | internal/worker/outbox.go:126-159 | afterwards the aggregate has a snapshot at its former head or beyond, whatever ran meanwhile; alone, a snapshot at its head is all that is added |
| SnapshotBuilding.BuildType | internal/worker/outbox.go:98-122 | whichever twenty stale aggregates PostgreSQL selects, or all if fewer, these are covered afterwards; alone, exactly these are stale no longer |
| SnapshotBuilding.BuildSnapshots | internal/worker/outbox.go:96-124 | under any interference each type has a turn whose selected aggregates are covered when the pass ends; undisturbed, a pass leaves exactly twenty stale aggregates of each type fewer, or none |
| SnapshotBuilding.CatchUp | internal/worker/outbox.go:82-94 | undisturbed, and whatever each query selects, exactly n - 20p of n stale aggregates of a type are left after p passes; none is left exactly from ceil(n/20) passes on |
| SnapshotBuilding.StaleMembers | internal/worker/outbox.go:98-106 | the query ranges over exactly the aggregates without a snapshot at their latest version |
| SnapshotHook.HookBreaksSnapshots | internal/user/service.go:128-141 | for every version from 2 on at or beyond the first at which the hook fires, some run stores a snapshot at that version that is not the fold |
| SnapshotHook.HookReadsIff | internal/user/service.go:128-130 | after a committed user command the hook reads the row if and only if the period is positive and divides the version written |
| SnapshotHook.HookSavesDeletion | internal/user/service.go:122-141 | of a user whose last event is the deletion the hook saves a deleted user without name and email |
| SnapshotHook.UserSnapshotsFaithfulIff | internal/user/service.go:128-141 | user snapshots at a version are faithful in all runs if and only if the hook does not fire at or below it, or the version is at most 1 |
| SnapshotHook.ReplaysExactIff | internal/replay/engine.go:71-111 | replays at version v, and unbounded ones that find the head at v, return the fold in all runs, wherever their two reads fall, if and only if the aggregate is no user, the hook does not fire at or below v, or v is 1 |
| SnapshotHook.ReplayLosesName | internal/user/service.go:128-141 | for every such v past the hook, a run in which replays at v return the fold before the hook saves the row, and a blank name after |
| SnapshotHook.SnapshotsFaithfulIffHookSilent | internal/user/service.go:128-141 | all snapshots of all runs are faithful if and only if the hook never fires |
| Scenarios.AloneAppends | internal/platform/commands.go:58-106 | a command that meets no other commits the next version, dated by its start |
| Scenarios.TimesMayDecrease | migrations/001_init.sql:10 | a run whose history has decreasing creation times, and a time-bounded load that is no prefix |
| System.ReachInv | cmd/api/main.go:64-125 | the invariants of writers, publishers and readers hold together after every run |
| System.NextInv | cmd/api/main.go:64-125 | every action of any process keeps all invariants and only extends histories, deliveries, marks and saved versions |
| RateLimiter.Limiter.Allow | internal/api/ratelimit.go:21-40 | a request passes if and only if fewer than the limit passed within the last window, for any interleaving of clients |
| RateLimiter.Limiter.Update | internal/api/ratelimit.go:25-39 | the client's slice is cleaned and extended in place, and no other client's slice changes |
| RateLimiter.CleanAndRecord | internal/api/ratelimit.go:26-38 | the in-place filter and the append into spare capacity compute the specified decision |
| RateLimiter.KeptIsGranted | internal/api/ratelimit.go:27-33 | the clean-up forgets nothing that can still matter |
| RateLimiter.DeniedIffFull | internal/api/ratelimit.go:34-39 | a request is denied if and only if the window is full, and then exactly full when the limit is positive |
| RateLimiter.AtMostLimit | internal/api/ratelimit.go:21-40 | in every half-open interval of the window's length, wherever it starts, at most the limit passes |
| RateLimiter.Limiter.LimitHoldsNow | internal/api/ratelimit.go:21-40 | the same for the limiter object after any sequence of calls |
| Diff.Compare | internal/diff/engine.go:15-46 | in whatever order keys are visited, the changed keys are listed once each, are those that differ, and carry both values; nil when nothing differs |
| Diff.VisitTarget | internal/diff/engine.go:22-35 | the first loop records the differences at the target's keys |
| Diff.VisitSource | internal/diff/engine.go:37-43 | the second loop adds the keys the target lacks |
| Diff.EmptyIffEqual | internal/diff/engine.go:15-46 | the difference is empty if and only if the maps are equal |
| Diff.PatchIffNoNewNull | internal/diff/engine.go:27-42 | patching the source gives the target if and only if no changed key holds nil there |
| Diff.SwapInverts | internal/diff/engine.go:15-46 | swapping the arguments inverts the difference |
| Diff.DiffsComposeIff | internal/diff/engine.go:15-46 | consecutive differences compose if and only if no key is nil in one end and missing in the other |
| Migrate.MigrationsArePrefix | pkg/migrate/migrate.go:37-68 | after any concurrent, failing and interrupted runs the schema is a prefix of the sorted files, each applied once and exactly those recorded; a run that returned nil leaves all of them |
| Migrate.NextInv | pkg/migrate/migrate.go:37-68 | every statement of every run keeps that invariant |
| Migrate.Up | pkg/migrate/migrate.go:14-71 | nil means all migrations are in effect, nothing is undone; without a failing statement of its own a run fails only where another run took a file from it, by recording it after the check or by holding its name to the end of the wait; on its own a run succeeds whatever earlier runs left |
| Migrate.ApplyFile | pkg/migrate/migrate.go:37-68 | a file is skipped if recorded, else applied and recorded together or not at all; without a failing statement only another run prevents that |
| Migrate.InsertRecord | pkg/migrate/migrate.go:60-63 | the primary key lets one run record a file; others fail when it is recorded, or when it is still held after all that they waited for |
| Migrate.ListFiles | pkg/migrate/migrate.go:24-35 | the list holds exactly the names that end in .sql and are no directories; of two names the earlier is a prefix of the later or has the smaller character where they first differ |
| Migrate.BeforeIff | pkg/migrate/migrate.go:35 | the order of names is the lexicographic one, by the first difference |
| Migrate.ListIsUnique | pkg/migrate/migrate.go:29-35 | the list does not depend on the order in which the directory is read |

## Left out

- HTTP and gRPC handlers, authentication, roles, metrics, tracing, the embedded UI: plumbing without deep properties.
- PostgreSQL, Redis and NATS themselves: tables are sequences and maps with atomic statements, transactions are pending writes that appear at commit, a send appends to a log, cache entries can expire at any time.
- Byte-level JSON and timestamp parsing: payloads and documents are datatypes that keep omitted fields, unset pointers and nil slices apart; a payload that does not decode is one value.
- The metadata column, `Timeline`, `History` and `Search`: bounded queries that are easy once the log is modelled.
- Idempotency keys: the check, the command and the store are separate calls without a common transaction.
- The cache warmer: it discards its results.
- The `GetCurrent` read after a commit is modelled only where the user snapshot hook uses its result.
- Integer widths of versions and ids: they are unbounded integers; only order amounts and the nanoseconds in a cache key wrap as int64.
- A failed row scan in `publishBatch`, whose `continue` would pass over a row: scans are assumed to succeed.
- Database errors other than unique violations: any statement of a command can fail and end in a rollback, and a commit can lose its acknowledgement; reads of replays and publishers are assumed to succeed.
- Event types that no service writes (email, address, avatar, password and price changes, item removal) are modelled in the aggregates; the commands that would write them do not exist.
- Commands.Append: an insert that still waits when its schedule ends is rolled back, because the model has no unbounded waiting.
- ReplayTheorems.VersionHitIsCurrentIff: for users past the hook the replay that a hit answers is named (`ReplayTheorems.HitsAnswerAReplay`), and what such a replay returns (`ReplayTheorems.ReplayContinuesRow`), but not when two of them agree.
- ReplayTheorems.ReplayIsFullReplay: for users past the hook only what a replay returns is given (`ReplayTheorems.ReplayContinuesRow`); for time bounds on histories with decreasing times only this sufficient condition is given, because two different event lists can happen to fold to one state; when the lists themselves agree is `ReplayEngine.AccountsForLoadedIff`.
- Diff.Compare: `reflect.DeepEqual` is equality of values, so NaN and function values are not modelled.
- UserAggregate.RoundTrip: instants are integers; a Go time that went through JSON carries another location than one read from the database, so `reflect.DeepEqual` can report equal instants as changed. The same holds for products and orders.
- Migrate.Up: what a script does is its name in the schema; whether a script executes is left open.
