# Threadz core, modelled in Dafny

Threadz is a Ruby thread pool with a batch coordinator. This project models the
sequential bookkeeping that decides what the library does, with every thread
step taken as one atomic transition:

- `AtomicIntegers` (atomic_integer.dfy) models `Threadz::AtomicInteger`: a counter
  with `value`, `increment`, `decrement` and `set`. It also proves that an
  interleaving of unit increments and decrements loses no update.
- `Controls` (control.dfy) models `Threadz::Control`: the per-dispatch error list
  and retry flag that a batch's error handler uses through `try_again(limit)`.
- `Batches` (batch.dfy) models `Threadz::Batch`, with the `JobError` of
  `errors.rb`. It covers the outstanding-job counter, the latent buffer and
  `start`, `push` of nested Arrays, and the wrapper each job runs in: its retry
  loop, the decrement and the completion firing. It also covers `when_done`
  blocks and the decisions of `wait_until_done`. The thread pool appears here
  only as the FIFO of wrappers handed to it (`inPool`). A worker step runs any
  one queued wrapper to its end.
- `ThreadPools` (thread_pool.dfy) models `Threadz::ThreadPool`: its construction
  defaults, the job queue, one pass of a worker's loop (including the suicide
  pill), and one watchdog tick. The tick's kill-score arithmetic is the pure
  function `Tick`, and the kill score is a `real`.
- `Scenarios` (scenarios.dfy) holds caller scenarios in the style of
  `spec/threadz_spec.rb`. They are proved from the batch contracts alone.

Some behaviour of the code that the model keeps as written:

- The code has no `max_retries` option. Retries are bounded only by the limit
  the handler passes to `Control#try_again`.
- The code keeps no separate list of handler errors. A handler that raises
  makes its exception leave the wrapper before `@jobs_count.decrement`. That
  job then stays outstanding for good, so the batch never completes.
  `HandlerRaised` and the ghost counter `abandoned` model this.
- `kill_thread` calls `unshift` on the queue. The model takes the evident
  meaning of `unshift` and puts the pill at the front of the queue.
- `process` enqueues the block as it is, without a control object.

Two consequences of the code are worth noting:

- The decrement-then-check at the end of a wrapper is not under a lock (the lock
  is commented out). Treating a wrapper's end as atomic is an assumption of the
  model.
- A watchdog tick kills only while the worker count is above `min_size`. The
  count drops only when a worker takes the pill, so several pills can be queued
  before any of them is consumed.

## Model

| member | source | states |
|---|---|---|
| `AtomicIntegers.AtomicInteger.constructor` | lib/threadz/atomic_integer.rb:9-12 | a new counter holds the given value |
| `AtomicIntegers.AtomicInteger.Value` | lib/threadz/atomic_integer.rb:14-16 | returns the current value and changes nothing |
| `AtomicIntegers.AtomicInteger.Increment` | lib/threadz/atomic_integer.rb:18-24 | adds the amount (default 1) |
| `AtomicIntegers.AtomicInteger.Decrement` | lib/threadz/atomic_integer.rb:26-32 | subtracts the amount (default 1), with no lower bound |
| `AtomicIntegers.AtomicInteger.Set` | lib/threadz/atomic_integer.rb:34-38 | replaces the value |
| `AtomicIntegers.RunOps` | spec/atomic_integer_spec.rb:28-44 | performing an interleaving of calls one at a time leaves the value `Apply` gives |
| `AtomicIntegers.ApplyUnitOps` | spec/atomic_integer_spec.rb:28-44 | after unit increments and decrements in any order, the value has moved by their difference (no lost update) |
| `AtomicIntegers.BalancedOpsRestore` | spec/atomic_integer_spec.rb:28-44 | k increments and k decrements of 1, in any interleaving, return the counter to its start value |
| `Controls.Control.constructor` | lib/threadz/control.rb:6-9 | a fresh control has no errors and `retry?` false |
| `Controls.Control.TryAgain` | lib/threadz/control.rb:11-15 | sets the retry flag iff fewer errors than the limit were recorded, and otherwise leaves it unchanged |
| `Controls.Control.IsRetry` | lib/threadz/control.rb:17-19 | returns the flag and changes nothing |
| `Controls.Control.ResetRetry` | lib/threadz/control.rb:21-23 | clears the flag and nothing else |
| `Batches.NewBatch` | lib/threadz/batch.rb:12-36 | raises ArgumentError iff the handler is not callable; otherwise returns an empty batch, started iff not latent, with count 0 |
| `Batches.Batch.constructor` | lib/threadz/batch.rb:12-36 | a new batch satisfies the invariant, has count 0, no errors and no blocks, and is started iff not latent |
| `Batches.ScanMatchesLeaves` | lib/threadz/batch.rb:42-54 | `push` of a value succeeds iff nothing in it is uncallable, and then accepts every callable leaf in order; when it raises, the jobs already accepted are a prefix of the leaves |
| `Batches.ScanItemsStops` | lib/threadz/batch.rb:43-44 | once an Array element raises, later elements are not pushed |
| `Batches.Batch.Push` | lib/threadz/batch.rb:42-55 | the count rises by the number of jobs accepted; they are buffered while latent and not started and dispatched in order otherwise; the result says whether it raised |
| `Batches.Batch.PushItems` | lib/threadz/batch.rb:43-44 | pushes the elements in order and stops at the first that raises |
| `Batches.Batch.PushJob` | lib/threadz/batch.rb:45-51 | counts one job, then buffers it (latent, not started) or dispatches it, keeping the invariant |
| `Batches.Batch.SendToThreadpool` | lib/threadz/batch.rb:116-117 | appends the job's wrapper at the tail of the pool's FIFO |
| `Batches.Batch.Start` | lib/threadz/batch.rb:87-99 | on a latent batch: sets started, dispatches every buffered job once in FIFO order, empties the buffer and returns true; otherwise returns false and changes nothing |
| `Batches.Batch.Completed` | lib/threadz/batch.rb:75-77 | true iff the count is 0; under the invariant the count is never negative and is 0 iff nothing is buffered, queued or stuck |
| `Batches.Batch.Errors` | lib/threadz/batch.rb:80-84 | returns the recorded faults |
| `Batches.Batch.WhenDone` | lib/threadz/batch.rb:103-105 | on a complete batch calls the block at once without storing it; otherwise appends it to the registered blocks |
| `Batches.Batch.HandleDone` | lib/threadz/batch.rb:108-114 | one broadcast, then every registered block called in registration order, then the list cleared |
| `Batches.Batch.TakeWrapper` | lib/threadz/thread_pool.rb:64 | a worker removes one queued wrapper from the pool's queue (any position, since other workers may already hold the ones ahead of it), and the wrapper is recorded as run; the multiset of queued and run wrappers is unchanged |
| `Batches.Batch.RetryLoop` | lib/threadz/batch.rb:118-131 | records exactly the faults of `Retry` in the batch's errors and ends as `Retry` says |
| `Batches.RetryRecordsEachFault` | lib/threadz/batch.rb:119-131 | each failed attempt appends its own fault and nothing else is recorded; with no handler the job runs once and the wrapper goes on to the decrement |
| `Batches.RetryBound` | lib/threadz/batch.rb:119-129 | a job that always fails, under a handler calling `try_again(n)` each time, runs exactly max(n,1) times and leaves that many errors |
| `Batches.RetryTerminates` | lib/threadz/batch.rb:119-129 | a handler whose limits never exceed n ends the retry loop within max(n,1) attempts |
| `Batches.Batch.RunWrapper` | lib/threadz/batch.rb:116-140 | one wrapper leaves the pool's queue; its faults are recorded; it decrements exactly once unless its handler raised; the step that leaves the count at 0 broadcasts and fires the registered blocks in order; nothing else changes |
| `Batches.AfterWait` | lib/threadz/batch.rb:68-71 | raises JobError carrying all recorded errors iff some were recorded and there is no handler, and otherwise returns |
| `Batches.Batch.WaitUntilDone` | lib/threadz/batch.rb:63-72 | raises the deadlock error iff latent and not started; parks while incomplete unless a positive timeout ran out; otherwise makes the JobError decision |
| `Batches.Batch.ResumeWait` | lib/threadz/batch.rb:67-71 | a resumed waiter makes the JobError decision and never raises when a handler is configured |
| `ThreadPools.ThreadPool.constructor` | lib/threadz/thread_pool.rb:27-39 | min size defaults to 10, max size to five times min, threshold to 10; exactly min-size workers are spawned; empty queue and zero score |
| `ThreadPools.ThreadPool.ThreadCount` | lib/threadz/thread_pool.rb:41-43 | returns the worker count |
| `ThreadPools.ThreadPool.Process` | lib/threadz/thread_pool.rb:48-51 | appends the job at the tail of the queue and changes nothing else |
| `ThreadPools.ThreadPool.SpawnThread` | lib/threadz/thread_pool.rb:62-79 | counts one more worker |
| `ThreadPools.ThreadPool.KillThread` | lib/threadz/thread_pool.rb:82-84 | puts the suicide pill at the front of the queue |
| `ThreadPools.ThreadPool.WorkerStep` | lib/threadz/thread_pool.rb:64-76 | on the pill the worker uncounts itself and stops; a job is run and a fault in it is swallowed with the count unchanged; an empty queue blocks the worker |
| `ThreadPools.Decay` | lib/threadz/thread_pool.rb:99-106 | the score never grows in magnitude or changes sign, and a non-zero result is at least 1 in magnitude |
| `ThreadPools.Tick` | lib/threadz/thread_pool.rb:92-111 | with threshold > 0 the new score stays inside the threshold; an action resets it to 0; from a score inside the threshold, spawn happens only below max and kill only above min |
| `ThreadPools.ThreadPool.WatchdogTick` | lib/threadz/thread_pool.rb:88-111 | applies `Tick` and its action (pill or spawn), keeps the score inside the threshold, and never spawns past max size |

## Left out

- Threads, `Mutex`, `Thread.new`/`stop`/`wakeup`/`pass`/`terminate` and `Timeout` are not modelled. Each public call, each wrapper run and each watchdog tick is one atomic step.
- lib/threadz/sleeper.rb is not part of this model. A broadcast is counted in `broadcasts`. A blocked `wait_until_done` is the `Parked` result, and its resumption is `ResumeWait`.
- Batches.Batch.WaitUntilDone: whether a timed wait ran out is the `timedOut` parameter. The race between `completed?` and parking on the sleeper, which can lose the wakeup, is not captured.
- Batches.Batch.RunWrapper: `fuel` bounds the attempts the model follows. A wrapper still retrying after that is counted as never decrementing. `RetryTerminates` shows that fuel max(n,1) suffices for a handler whose limits stay at most n.
- Batches.Batch.RunWrapper: two wrappers finishing at once, or a push racing with the decrement-then-check, are not modelled (the source's lock there is commented out).
- Side effects of a job or an error handler are not modelled. A job is modelled only by whether each attempt returns or raises, and a handler only by its answer: proceed, raise, or `try_again`. A `when_done` block is a bare identifier logged in `called`.
- Batches.Batch.HandleDone: every block is assumed to return. A block that raises would leave `handle_done` before the list is cleared, skip the later blocks, keep the list for the next completion, and pass its exception to the worker's `rescue`.
- Batches.Batch.WhenDone: the block is assumed to return. A block called at once that raises passes its exception to the caller of `when_done`.
- Batches.Batch.RunWrapper: only `StandardError` faults are modelled (`Fault`). A job raising another kind of exception would get past both `rescue StandardError` clauses, skip the decrement, and end its worker without lowering the worker count.
- A handler that changes `control.errors` itself is not modelled.
- `Control#try_again` with no argument is not modelled. Its default `Infinity` is not a defined constant, so such a call raises, which the model covers as a handler that raises.
- The batch's own reference to its pool and `ThreadPool#new_batch` are not modelled. Batch wrappers go to `Batch.inPool`, not to `ThreadPool.queue`.
- `num_waiting` (idle workers) is a parameter of the watchdog tick. The 0.1 s sleep between ticks is dropped.
- The kill score is a `real`, so IEEE rounding of `*= 0.9` is not modelled.
- `$stderr`/`puts` diagnostics, the `$DEBUG` flag, lib/threadz.rb, threadz.rb and the superseded lib/atomic_integer.rb and lib/sleeper.rb are not part of this model.
- `Queue#unshift`, which `kill_thread` calls, is not a method of Ruby's `Queue`. The model takes the evident meaning: the pill goes to the front.
