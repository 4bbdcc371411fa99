# go-etl core in Dafny

This is a model of the batching ETL engine of go-etl and of its
MongoDB-to-PostgreSQL user migration, with proofs about the model. It covers
four parts:

- **`bucket`** (`bucket.dfy`, module `Bucket`). Covered:
  - the `Config` defaults that `New` writes back into the caller's struct;
  - the bounded intake (`Consume`, `Close`, and the worker's receive);
  - the per-worker accumulate-and-flush state machine;
  - how `Run` reduces the workers' results to one error.

  A worker is driven by the `select` cases that fire for it: an item
  received, a tick, the intake closed, or the context cancelled. The handler
  is an oracle. Each batch is answered given the batches that worker handed
  over before it. `Step`/`Execute` define the state machine. The `Worker`
  method runs the loop with its `flush` closure and is proved equal to
  `Execute`. The central lemma is `SingleWorkerRun`: with one worker, no
  ticks and a handler that always succeeds, the batches are the consecutive
  `BatchSize` chunks of the items in order, with the remainder last.
- **`ETL.Run`** (`etl.dfy`, module `Etl`). An `ETLProcessor` is a record of
  five oracles. Each hook is answered given the history of calls already
  made on the processor. The model covers:
  - the `PreProcess → Extract → feed → bucket → PostProcess` chain with its
    stage-tagged errors;
  - the feeder loop, which stops at the first error payload and only prints
    that error;
  - the batch handler (`Transform` each item, then one `Load`).

  `RunSpec` is the specification. The `Run` method is proved against it.
- **`Manager`** (`manager.dfy`, module `EtlManager`). Covered:
  - `NewManager` defaulting;
  - append-only registration;
  - the `pipelineAdapter`, which calls `PreProcess` and `PostProcess` once
    itself and once more inside `ETL.Run`;
  - `RunAll`: the empty-registry error, every pipeline run exactly once,
    nil iff all succeed, and the semaphore as a permit counter bounded by
    `WorkerNum`.

  The goroutines' admit/finish steps come from an arbitrary schedule. The
  model completes it with a fair ending.
- **`UserETL`** (`users.dfy`, module `UserMigration`). Covered:
  - `Transform`, which flattens a nested `User` into fifteen row
    collections with the synthetic keys `user.ID*10000 + idx`;
  - `Load`, which gathers a batch into fifteen tables and then inserts them
    in dependency order, skipping empty child tables and stopping at the
    first failing insert.

  The database is an oracle that answers each insert given the inserts made
  before it. `UserProcessor` plugs these into `ETL.Run`.

`errors.dfy` (module `Errors`) holds the `error` values the core builds. Each
`fmt.Errorf("...: %w")` wrapping is a constructor that keeps its tag, worker id
or pipeline name.

The model follows the code in these details:

- A failed flush does not reset the buffer. `queue = queue[:0]` runs only
  after a nil answer.
- On cancellation a worker still flushes its buffer once.

The two configurations have different defaults. `bucket.New` sets a
non-positive `WorkerNum` to 1. `NewManager` sets its own `WorkerNum` to 4.

## Model

| member | source | states |
|---|---|---|
| Bucket.Defaults | pkg/bucket/bucket.go:30-38 | A non-positive BatchSize, Timeout or WorkerNum becomes 100, 5 s or 1, and a positive one is kept. The result is positive in every field. |
| Bucket.DefaultsIdempotent | pkg/bucket/bucket.go:30-38 | Defaulting twice is the same as defaulting once. A configuration that is already positive is left unchanged. |
| Bucket.Config.constructor | pkg/bucket/bucket.go:16-20 | A `Config` holds exactly the batch size, timeout and worker count it was given. |
| Bucket.Bucket.New | pkg/bucket/bucket.go:29-44 | Writes the defaulted configuration back into the caller's `Config` and keeps a copy. Starts an empty, open intake whose capacity is the defaulted BatchSize. |
| Bucket.Bucket.Consume | pkg/bucket/bucket.go:47-49 | On an open intake with room, the item is appended at the end. On a full intake the sender must wait and nothing changes. Sending on a closed intake panics and leaves it unchanged. |
| Bucket.Bucket.Close | pkg/bucket/bucket.go:52-54 | Marks the intake closed and keeps its contents. Closing it a second time panics. |
| Bucket.Bucket.Receive | pkg/bucket/bucket.go:127-128 | Removes and returns the oldest item. An empty closed intake reports `ok == false`. An empty open one yields nothing yet. |
| Bucket.Flush | pkg/bucket/bucket.go:105-113 | An empty buffer makes no handler call and gives nil. Otherwise the handler is called once with the whole buffer, that batch is logged, and the buffer is emptied only if the handler returned nil. |
| Bucket.Worker | pkg/bucket/bucket.go:99-143 | The `for`/`select` loop with its `flush` closure ends in exactly the state `Execute` gives for the same select cases. |
| Bucket.WorkerBatchBounds | pkg/bucket/bucket.go:133-140 | Every batch handed to the handler has between 1 and BatchSize items. While the worker runs, its buffer holds fewer than BatchSize items. |
| Bucket.TickFlushesPartialBatch | pkg/bucket/bucket.go:121-125 | A tick with a non-empty buffer hands the partial batch to the handler. The worker goes on with an empty buffer iff the handler returned nil, and otherwise returns that error. |
| Bucket.TerminalFlushesOnce | pkg/bucket/bucket.go:115-131 | Cancellation or a closed intake flushes the remaining buffer once, if it is non-empty. The worker then returns that flush's result, and later cases have no effect. |
| Bucket.WorkerStopsOnTerminal | pkg/bucket/bucket.go:115-131 | Once a cancellation or closure is among a worker's select cases, the worker has returned. |
| Bucket.WorkerLog | pkg/bucket/bucket.go:105-142 | While the worker runs, or after it returned nil, every handler call was answered nil. After it returned an error, that error answered the last batch and every earlier batch was answered nil. |
| Bucket.WorkerSucceedsIff | pkg/bucket/bucket.go:105-142 | A worker that has returned returned nil iff the handler answered nil to every batch it handed over. |
| Bucket.StepPreservesOrder | pkg/bucket/bucket.go:127-140 | With a handler that always succeeds, one select case keeps the handed-over batches followed by the buffer equal to the items received so far, in order. A closure or cancellation ends the worker with nil and an empty buffer. |
| Bucket.WorkerPreservesOrder | pkg/bucket/bucket.go:127-140 | With a handler that always succeeds, the concatenated batches followed by the buffer are exactly the received items in arrival order. A returned worker returned nil and kept nothing buffered. |
| Bucket.ChunksConcat | pkg/bucket/bucket.go:133-140 | Concatenating the BatchSize chunks of a sequence gives back the sequence. |
| Bucket.ChunksSizes | pkg/bucket/bucket.go:133-140 | There are no chunks iff the input is empty. Every chunk but the last has BatchSize items, and the last has 1 to BatchSize items, accounting for the whole length. |
| Bucket.SingleWorkerBatches | pkg/bucket/bucket.go:127-140 | From any running state with a short buffer, receiving the items and then the closure hands over the chunks of buffer plus items, in order. The worker ends with nil and an empty buffer. |
| Bucket.SingleWorkerRun | pkg/bucket/bucket.go:127-140 | A single worker with no ticks and a handler that always succeeds returns nil. Its batches are the consecutive BatchSize chunks of the items, which concatenate to the items in order, and every batch but the last is full. The select cases it sees deliver exactly those items. |
| Bucket.ExampleSevenItems | pkg/bucket/bucket.go:133-140 | With BatchSize 3, items 1..7 are handed over as [1,2,3], [4,5,6], [7]. |
| Bucket.ExampleTick | pkg/bucket/bucket.go:121-140 | With BatchSize 2, a tick after item 1 flushes [1] alone. Items 2 and 3 then go as [2,3], and the closure finds nothing left. |
| Bucket.FailuresFirst | pkg/bucket/bucket.go:76-82 | At most one error per worker is sent. Nothing is sent iff no worker failed. The first error sent is the first failing worker in report order, wrapped as `worker <id>: ...`. |
| Bucket.VerdictMeaning | pkg/bucket/bucket.go:86-95 | Once all workers have returned, the result is nil iff every worker returned nil. Otherwise it is the wrapped error of a failing worker that reported before any other failure. |
| Bucket.Run | pkg/bucket/bucket.go:63-96 | Each worker runs its own select cases as `Execute` does. What goes into `errCh` is exactly the failing workers' wrapped errors in report order, never more than WorkerNum, so the buffered channel drops nothing. The result is the first of them, or nil. |
| Etl.Feed | pkg/etl/etl.go:73-92 | The feeder loop matches `Fed`. On each of its three exits (cancellation, end of channel, first error payload) its bucket operations are one `Consume` per fed item, in channel order, followed by exactly one `Close`. |
| Etl.FeedMeaning | pkg/etl/etl.go:73-92 | The fed items are the data of the leading error-free payloads, in channel order. The feed ends cancelled exactly when cancellation arrived at that point. It reaches the end of the channel only after every payload, and an error payload ends it at the first error payload. |
| Etl.ErrorPayloadActsAsEnd | pkg/etl/etl.go:84-88 | Payloads after the first error payload are never consumed. The feed consumes what it would have consumed had the channel ended there. |
| Etl.ReplayFeed | pkg/etl/etl.go:73-92 | The feeder's operations, one `Consume` per fed item and then one `Close`, applied in order to a fresh `Bucket` while a worker receives whenever the intake is full. Every send and the close are delivered and none panics. The worker side receives exactly the fed items, in order. |
| Etl.HandleBatch | pkg/etl/etl.go:95-105 | The handler transforms every item in order, into a sequence of the same length with `transformed[i] == Transform(items[i])`. That sequence is `Transformed`. It calls `Load` once with it and returns its answer, which is the answer of `BatchHandler`, the handler the bucket is given. |
| Etl.Run | pkg/etl/etl.go:54-117 | The result and the processor calls made are those of `RunSpec` on the caller's configuration. The caller's `Config` is defaulted in place exactly when `PreProcess` succeeded, because `bucket.New` runs only then. |
| Etl.RunBucket | pkg/etl/etl.go:72-116 | Feeding the bucket, running it with the batch handler and then `PostProcess` gives the result and calls of `AfterExtract`. |
| Etl.PreProcessFailureStops | pkg/etl/etl.go:56-58 | A failing `PreProcess` makes the run return `failed to pre-process: ...`. It makes no further call, so there is no `Extract`, `Load` or `PostProcess`. |
| Etl.ExtractFailureStops | pkg/etl/etl.go:66-70 | A failing `Extract` makes the run return `failed to extract: ...` after exactly `PreProcess` and `Extract`. |
| Etl.BatchingSucceedsIff | pkg/etl/etl.go:95-109 | The bucket run returns nil iff every `Load` call it made returned nil. |
| Etl.AfterExtractSucceedsIff | pkg/etl/etl.go:72-116 | After a successful `Extract`, the rest of the run returns nil iff every call it made succeeded. |
| Etl.RunSucceedsIff | pkg/etl/etl.go:54-117 | `Run` returns nil iff `PreProcess`, `Extract`, every `Load` invoked, and `PostProcess` all succeeded. |
| Etl.SuccessfulRunCalls | pkg/etl/etl.go:54-117 | A successful run calls `PreProcess`, then `Extract`, then only `Load`s, and `PostProcess` last. |
| Etl.PostProcessOnlyAfterBatching | pkg/etl/etl.go:107-114 | `PostProcess` is called iff the bucket run returned nil. A failed bucket run returns `failed to run ETL: ...` around its error. When the bucket run passes and `PostProcess` fails, the run returns `failed to post-process: ...` around that error. |
| Etl.LoadsAreChunks | pkg/etl/etl.go:95-117 | Under `Etl.Run`'s one schedule (worker 0 receives every item, no ticks), with no cancellation and every `Load` succeeding, the calls are `PreProcess`, `Extract`, then one `Load` per consecutive chunk of the fed items transformed, then `PostProcess`. The chunks have the defaulted BatchSize. |
| Etl.ErrorPayloadNotReturned | pkg/etl/etl.go:84-88 | An error payload does not make the run fail. The run is the run of a channel that ended just before it. |
| Etl.RunSpecDefaults | pkg/etl/etl.go:61-61 | Running with an already defaulted configuration is the same as running with the raw configuration. |
| EtlManager.Config.constructor | pkg/etl/manager.go:19-22 | A manager `Config` holds the maximum number of concurrent pipelines it was given. |
| EtlManager.AdapterRun | pkg/etl/manager.go:124-141 | The adapter gives the result and calls of `AdapterSpec`: `PreProcess`, `ETL.Run`, `PostProcess`, stopping at the first failure with `pre-process failed`, `ETL run failed` or `post-process failed`. The caller's bucket `Config` is defaulted iff both `PreProcess` calls succeeded. |
| EtlManager.AdapterSucceedsIff | pkg/etl/manager.go:124-141 | The adapter returns nil iff every processor call it caused succeeded. |
| EtlManager.AdapterSuccessCalls | pkg/etl/manager.go:124-141 | A successful adapter run is one `PreProcess`, a successful `ETL.Run`, then one `PostProcess`. |
| EtlManager.HooksRunTwice | pkg/etl/manager.go:124-141 | A fully successful adapter run calls `PreProcess` twice before `Extract` and `PostProcess` twice at the end, and each exactly twice in all. |
| EtlManager.Adapter | pkg/etl/manager.go:115-122 | The adapter runner reports the name it was registered with. |
| EtlManager.AdmitKeeps | pkg/etl/manager.go:88-88 | Acquiring a permit keeps the pool invariant. The held permits are the running pipelines, never more than WorkerNum, and the finished list names each finished pipeline once. |
| EtlManager.FinishKeeps | pkg/etl/manager.go:89-96 | Finishing a running pipeline releases its permit, records it as finished and keeps the pool invariant. |
| EtlManager.PlayMoves | pkg/etl/manager.go:81-98 | Any interleaving of the goroutines' acquire and finish steps keeps the pool invariant. |
| EtlManager.FinishRunning | pkg/etl/manager.go:100-101 | Letting every running pipeline finish leaves none running and leaves the waiting ones waiting. |
| EtlManager.RunWaiting | pkg/etl/manager.go:100-101 | With at least one permit, every waiting pipeline is eventually admitted and finishes. |
| EtlManager.Settle | pkg/etl/manager.go:81-101 | After `wg.Wait()` every pipeline has finished exactly once, and at most WorkerNum ran at a time. |
| EtlManager.Collect | pkg/etl/manager.go:104-111 | Draining `results` gives nil iff every result is nil. Otherwise it gives the first non-nil result. |
| EtlManager.Manager.New | pkg/etl/manager.go:32-42 | A non-positive `WorkerNum` becomes 4 in the caller's `Config` and a positive one is kept. The manager copies it and starts with no pipelines. |
| EtlManager.Manager.AddPipelineInternal | pkg/etl/manager.go:46-48 | Appends the runner after the existing pipelines and keeps them unchanged. |
| EtlManager.Manager.AddRunner | pkg/etl/manager.go:51-53 | Appends the runner after the existing pipelines, without checking for duplicate names. |
| EtlManager.Manager.Reported | pkg/etl/manager.go:91-96 | A pipeline reports nil iff its `Run` returned nil. Otherwise it reports `pipeline <name> failed: ...` around that error. |
| EtlManager.Manager.RunAll | pkg/etl/manager.go:67-112 | No pipelines gives `no pipelines registered` with nothing run. Otherwise every pipeline runs exactly once. The returned semaphore state satisfies the pool invariant that `AdmitKeeps` and `FinishKeeps` preserve: the permits ever held at once stay within WorkerNum. In that state every pipeline is done and no permit is held. The result is nil iff every pipeline succeeded, and otherwise the first failing result in completion order. |
| EtlManager.AddPipelineGeneric | pkg/etl/manager.go:57-63 | Registers one adapter around the processor, under the given name, at the end of the list. |
| UserMigration.AppendRows | cmd/benchmark/pipeline.go:133-143 | One `range`/`append` loop produces one row per input element, in order, with the element's index. |
| UserMigration.MessageRows | cmd/benchmark/pipeline.go:208-231 | One message row per message in order. The attachments are those of every message, message after message. |
| UserMigration.Transform | cmd/benchmark/pipeline.go:92-293 | The loops build exactly the fifteen collections of `Flatten`. |
| UserMigration.FlattenPerUserRows | cmd/benchmark/pipeline.go:94-130 | The users, addresses, profiles, preferences, social-media and large-data rows have `ID` equal to `user.ID`, and `UserID` too where the row has one. Every scalar field of the document is copied unchanged, and the JSON columns encode the coordinates, interests, skills, notification flags and connections. |
| UserMigration.FlattenChildRows | cmd/benchmark/pipeline.go:133-263 | Education, experience, settings, activity log, transactions, messages, posts and groups each have one row per element, in order. The i-th row of an indexed table has `ID == user.ID*10000 + i` and the parent key `user.ID`. Messages and groups keep their own IDs, and every field of the i-th element is copied into its row. |
| UserMigration.AttachmentsLayout | cmd/benchmark/pipeline.go:209-231 | The attachment rows number the sum of attachments over all messages. The j-th attachment of message i is at that message's offset plus j, with `ID == user.ID*10000 + j` and `MessageID == msg.ID`. |
| UserMigration.AttachmentAt | cmd/benchmark/pipeline.go:222-229 | The j-th attachment of message i lies inside the attachment rows, at that message's offset plus j. |
| UserMigration.AttachmentIdsRepeat | cmd/benchmark/pipeline.go:222-230 | The first attachments of the first two messages get the same `ID`, because the index restarts at each message. |
| UserMigration.ChildIdInjective | cmd/benchmark/pipeline.go:136-136 | With fewer than 10000 children per parent, distinct (parent, index) pairs get distinct synthetic keys. |
| UserMigration.GatheredPerUser | cmd/benchmark/pipeline.go:318-334 | Each per-user table of a batch has one row per item, the k-th from the k-th item. |
| UserMigration.GatheredSnoc | cmd/benchmark/pipeline.go:318-334 | One more item appends its per-user rows and its child rows, in order, at the end of each of the fifteen tables. |
| UserMigration.Gather | cmd/benchmark/pipeline.go:301-334 | The collection loop builds exactly `Gathered`. The per-user tables are the items' rows in batch order, and each child table is the in-order concatenation of the items' child rows. |
| UserMigration.PlanShape | cmd/benchmark/pipeline.go:336-431 | The insert plan lists tables in the fixed dependency order users, addresses, profiles, …, large_data. A table is in the plan iff it is not an empty child table. |
| UserMigration.ChainPasses | cmd/benchmark/pipeline.go:336-431 | A successful insert chain made every planned insert, and each one succeeded. |
| UserMigration.ChainAllPass | cmd/benchmark/pipeline.go:336-431 | If every planned insert succeeds, the chain returns nil after making all of them. |
| UserMigration.ChainStopsAt | cmd/benchmark/pipeline.go:336-431 | The first failing insert stops the chain. Later tables are never inserted, and the result is that table's `failed to insert <table>: ...`. |
| UserMigration.LoadSucceedsIff | cmd/benchmark/pipeline.go:296-432 | `Load` of an empty batch returns nil with no insert. Otherwise it returns nil iff every planned insert succeeds. |
| UserMigration.LoadStopsAtFirstFailure | cmd/benchmark/pipeline.go:336-431 | For a non-empty batch and any m: if the m-th planned insert is the first to fail, `Load` makes exactly the first m+1 inserts and returns that table's tagged error. |
| UserMigration.StagesAreChain | cmd/benchmark/pipeline.go:336-431 | The fixed sequence of `if` blocks from table s onward is the insert chain over the plan of the remaining tables. |
| UserMigration.InsertUserTables | cmd/benchmark/pipeline.go:336-350 | The users, addresses and profiles inserts either fail as the chain does or hand on to the education stage. |
| UserMigration.InsertProfileTables | cmd/benchmark/pipeline.go:352-364 | The education and experience inserts run only when non-empty, and either fail as the chain does or hand on to preferences. |
| UserMigration.InsertPreferenceTables | cmd/benchmark/pipeline.go:366-383 | The preferences, settings and activity-log inserts either fail as the chain does or hand on to transactions. |
| UserMigration.InsertMessageTables | cmd/benchmark/pipeline.go:385-404 | The transactions, messages and attachments inserts either fail as the chain does or hand on to social media. |
| UserMigration.InsertSocialTables | cmd/benchmark/pipeline.go:406-428 | The social-media, posts, groups and large-data inserts either fail as the chain does or complete it. |
| UserMigration.InsertAll | cmd/benchmark/pipeline.go:336-428 | The whole insert sequence gives the result and inserts of the chain over all fifteen tables. |
| UserMigration.Load | cmd/benchmark/pipeline.go:296-432 | An empty batch returns nil with no insert. Otherwise `Load` returns the result and inserts of `LoadSpec`: gather, then insert in plan order, stopping at the first failure. |
| UserMigration.UserRunFailures | cmd/benchmark/pipeline.go:48-89 | `UserETL.Extract` always returns its channel, and `PostProcess` always returns nil. So a user migration run fails only with `failed to pre-process` or `failed to run ETL`, and it returns nil iff `AutoMigrateAll` succeeded and the run reached `PostProcess`. |

## Left out

- `UserETL.Extract` (cmd/benchmark/pipeline.go:54-89) is a MongoDB cursor read in a goroutine. Only its output is modelled, as a sequence of payloads that may contain an error payload.
- `AutoMigrateAll` and `CreateInBatches` are database effects. They are oracles here, and each table is one insert: the split into chunks of 500 rows is not modelled.
- The JSON columns filled by `json.Marshal`, whose errors are ignored, are opaque values.
- The float64 coordinates are `real`. Floating-point rounding is not modelled.
- UserMigration.ChildId: IDs are unbounded integers, so the int64 overflow of `user.ID*10000 + idx` is not modelled.
- `fmt.Printf`/`fmt.Println` logging is left out. The logged extraction error is the feed's end reason.
- Goroutines, tickers, channel blocking and backpressure are not modelled as concurrency. A worker's ticks, closure and cancellation are explicit events. The manager's goroutines are an admit/finish schedule over a permit counter.
- Etl.Run composes the bucket with one admissible schedule. Worker 0 receives every fed item and then the closure or cancellation, and the other workers see only the closure or cancellation. `Bucket.Run` itself is proved for any per-worker schedules and any report order.
- Etl.Feed records the bucket operations the feeder performs instead of sending them concurrently with the workers.
- Etl.Feed: the feeder selects on the caller's context (pkg/etl/etl.go:76), not on the bucket's own `procCtx` (pkg/bucket/bucket.go:64). After a `Load` failure the workers stop and `Run` returns `failed to run ETL`, while the feeder goes on calling `Consume`. Once the intake is full it blocks forever at pkg/bucket/bucket.go:48 and never calls `Close`. The model covers only the feeder's three exits, not this leaked goroutine.
- Bucket.Run: a `Handler` answers a batch from the batches its own worker handed over before. A handler whose answer depends on other workers' batches cannot be expressed, although their `Load`s go to one shared database. Each worker's `Load` answers are therefore independent of how the batches of other workers interleave.
- Bucket.Run: the `cancel()` of sibling workers after a failure appears only through the schedules given to them.
- The `failed to create bucket` branch (pkg/etl/etl.go:62-64) is not modelled, because `bucket.New` never returns an error.
- EtlManager.Manager.RunAll hands every runner the current value of the shared bucket `Config`. It does not model the pipelines writing the defaults back into that shared struct while others read it. `Etl.RunSpecDefaults` shows the write-back does not change what a later run does.
- The context passed to the processor hooks is not modelled. Cancellation is the position in the payload stream at which the feeder sees `ctx.Done()`.
- The `Name()` method of a runner is its `name` field.
- A worker blocked forever waiting for items is outside the model, because every modelled schedule is finite.
- cmd/benchmark/main.go is not part of this model: configuration loading, connections, signal handling, profiling and throughput printing.
