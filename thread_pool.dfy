/** Model of lib/threadz/thread_pool.rb: the shared job queue, the worker count,
    one step of a worker's loop, and one tick of the watchdog that grows or
    shrinks the pool from its kill score.

    Threads are not modelled: a worker step and a watchdog tick are each one
    atomic transition, and `num_waiting` (the workers blocked on the queue) is a
    parameter of the tick. The kill score is a real number, not a float. */
module ThreadPools {
  import opened Wrappers
  import opened AtomicIntegers

  /** `KILL_THRESHOLD`, the default kill threshold. */
  const KILL_THRESHOLD: real := 10.0
  /** `THREADS_BUSY_SCORE`: subtracted from the score per queued entry. */
  const THREADS_BUSY_SCORE: real := 1.0
  /** `THREADS_IDLE_SCORE`: added to the score per idle worker. */
  const THREADS_IDLE_SCORE: real := 1.0
  /** The default `:initial_size`. */
  const DEFAULT_INITIAL_SIZE: int := 10
  /** The default `:maximum_size` is this many times the minimum size. */
  const DEFAULT_MAX_FACTOR: int := 5

  /** A block given to `process`; `raises` says whether calling it raises. */
  datatype PoolJob = PoolJob(id: nat, raises: bool)

  /** An entry of the queue: a job, or the directive that retires a worker. */
  datatype Entry = SuicidePill | Task(job: PoolJob)

  /** `ThreadPool.new` options; `None` stands for an absent (or nil) key. */
  datatype PoolOptions = PoolOptions(initialSize: Option<int>, maximumSize: Option<int>, killThreshold: Option<real>)

  /** What a watchdog tick decides: nothing, `kill_thread` or `spawn_thread`. */
  datatype Action = NoAction | Kill | Spawn

  datatype TickResult = TickResult(score: real, action: Action)

  /** What one step of a worker's loop did. */
  datatype StepResult = Blocked | Retired | Ran(job: PoolJob, faulted: bool)

  function Abs(x: real): real
  {
    if x < 0.0 then -x else x
  }

  /** The decay branch of a tick: shrink a non-zero score by 0.9 and snap it to
      0 once its magnitude is below 1. The score moves strictly toward 0 without
      changing sign, and what is left is 0 or at least 1 in magnitude. */
  function Decay(s: real): (r: real)
    ensures Abs(r) <= Abs(s)
    ensures r != 0.0 ==> 1.0 <= Abs(r) < Abs(s)
    ensures (s >= 0.0 ==> r >= 0.0) && (s <= 0.0 ==> r <= 0.0)
  {
    var d := if s != 0.0 then s * 0.9 else s;
    if Abs(d) < 1.0 then 0.0 else d
  }

  /** One watchdog tick on (score, idle workers, queued entries, workers, min,
      max, threshold): idle workers above the minimum raise the score, a busy
      pool below the maximum lowers it by the queue length, otherwise it decays;
      once its magnitude reaches the threshold a positive score kills a worker,
      a negative (or zero) one spawns one, and the score restarts at 0. */
  function Tick(score: real, idle: nat, queued: nat, workers: int, minSize: int, maxSize: int, threshold: real): (r: TickResult)
    ensures threshold > 0.0 ==> Abs(r.score) < threshold
    ensures r.action != NoAction ==> r.score == 0.0
    ensures !(idle > 0 && workers > minSize) && !(idle == 0 && workers < maxSize) ==> Abs(r.score) <= Abs(score)
    ensures threshold > 0.0 && Abs(score) < threshold && r.action == Spawn ==> workers < maxSize
    ensures threshold > 0.0 && Abs(score) < threshold && r.action == Kill ==> workers > minSize
  {
    var s :=
      if idle > 0 && workers > minSize then score + THREADS_IDLE_SCORE * idle as real
      else if idle == 0 && workers < maxSize then score - THREADS_BUSY_SCORE * queued as real
      else Decay(score);
    if Abs(s) >= threshold then TickResult(0.0, if s > 0.0 then Kill else Spawn)
    else TickResult(s, NoAction)
  }

  class ThreadPool {
    const minSize: int
    const maxSize: int
    const killThreshold: real
    /** `@worker_threads_count`. */
    const workerThreadsCount: AtomicInteger
    /** `@queue`, front first. */
    var queue: seq<Entry>
    /** `@killscore`. */
    var killScore: real
    /** Jobs the workers have taken from the queue and run, in order. */
    ghost var ran: seq<PoolJob>

    /** The watchdog keeps the score strictly inside (-threshold, threshold). */
    ghost predicate Valid()
      reads this
    {
      killThreshold > 0.0 ==> Abs(killScore) < killThreshold
    }

    /** `ThreadPool.new(opts)`: `:initial_size` defaults to 10 and is also the
        minimum; `:maximum_size` defaults to five times the minimum;
        `:kill_threshold` to 10. Exactly `min_size` workers are spawned (none
        when it is not positive, as `Integer#times` runs no block then). */
    constructor (opts: PoolOptions)
      ensures minSize == (if opts.initialSize.Some? then opts.initialSize.value else DEFAULT_INITIAL_SIZE)
      ensures maxSize == (if opts.maximumSize.Some? then opts.maximumSize.value else minSize * DEFAULT_MAX_FACTOR)
      ensures killThreshold == (if opts.killThreshold.Some? then opts.killThreshold.value else KILL_THRESHOLD)
      ensures fresh(workerThreadsCount)
      ensures workerThreadsCount.value == (if minSize > 0 then minSize else 0)
      ensures queue == [] && killScore == 0.0 && ran == [] && Valid()
    {
      var min := if opts.initialSize.Some? then opts.initialSize.value else DEFAULT_INITIAL_SIZE;
      minSize := min;
      maxSize := if opts.maximumSize.Some? then opts.maximumSize.value else min * DEFAULT_MAX_FACTOR;
      queue := [];
      workerThreadsCount := new AtomicInteger(0);
      killScore := 0.0;
      killThreshold := if opts.killThreshold.Some? then opts.killThreshold.value else KILL_THRESHOLD;
      ran := [];
      new;
      var k := 0;
      while k < minSize
        invariant 0 <= k <= (if minSize > 0 then minSize else 0)
        invariant workerThreadsCount.value == k
        modifies workerThreadsCount
      {
        SpawnThread();
        k := k + 1;
      }
    }

    /** `thread_count`: the live-worker count. */
    method ThreadCount() returns (n: int)
      ensures n == workerThreadsCount.value
    {
      n := workerThreadsCount.Value();
    }

    /** `process`: appends the job at the tail of the queue; nothing else changes. */
    method Process(job: PoolJob)
      modifies this`queue
      ensures queue == old(queue) + [Task(job)]
    {
      queue := queue + [Task(job)];
    }

    /** `spawn_thread`: starts a worker and counts it. */
    method SpawnThread()
      modifies workerThreadsCount
      ensures workerThreadsCount.value == old(workerThreadsCount.value) + 1
    {
      workerThreadsCount.Increment();
    }

    /** `kill_thread`: the pill goes to the front of the queue (`unshift`), so the
        next worker to take an entry retires. */
    method KillThread()
      modifies this`queue
      ensures queue == [SuicidePill] + old(queue)
    {
      queue := [SuicidePill] + queue;
    }

    /** One pass of a worker's loop: with nothing queued it stays blocked; on the
        pill it uncounts itself and stops; otherwise it runs the job, and a job
        that raises is swallowed so the worker carries on and the count is kept. */
    method WorkerStep() returns (r: StepResult)
      modifies this`queue, this`ran, workerThreadsCount
      ensures old(queue) == [] ==> (r == Blocked && queue == [] && ran == old(ran)
        && workerThreadsCount.value == old(workerThreadsCount.value))
      ensures old(queue) != [] ==> queue == old(queue[1..])
      ensures old(queue) != [] && old(queue[0]) == SuicidePill ==>
        r == Retired && ran == old(ran) && workerThreadsCount.value == old(workerThreadsCount.value) - 1
      ensures old(queue) != [] && old(queue[0]).Task? ==>
        r == Ran(old(queue[0]).job, old(queue[0]).job.raises) && ran == old(ran) + [old(queue[0]).job]
        && workerThreadsCount.value == old(workerThreadsCount.value)
    {
      if queue == [] {
        return Blocked;
      }
      var x := queue[0];
      queue := queue[1..];
      match x {
        case SuicidePill =>
          workerThreadsCount.Decrement();
          r := Retired;
        case Task(job) =>
          ran := ran + [job];
          r := Ran(job, job.raises);
      }
    }

    /** One tick of the watchdog with `idle` workers blocked on the queue: the
        score and the action follow `Tick`, and the action is carried out. From
        a score inside the threshold a tick spawns only below `max_size` and
        kills only above `min_size`, and it never spawns past `max_size`. */
    method WatchdogTick(idle: nat) returns (action: Action)
      requires Valid()
      modifies this`killScore, this`queue, workerThreadsCount
      ensures Valid()
      ensures var t := Tick(old(killScore), idle, |old(queue)|, old(workerThreadsCount.value), minSize, maxSize, killThreshold);
        killScore == t.score && action == t.action
      ensures action == Kill ==>
        queue == [SuicidePill] + old(queue) && workerThreadsCount.value == old(workerThreadsCount.value)
      ensures action == Spawn ==>
        queue == old(queue) && workerThreadsCount.value == old(workerThreadsCount.value) + 1
      ensures action == NoAction ==>
        queue == old(queue) && workerThreadsCount.value == old(workerThreadsCount.value)
      ensures killThreshold > 0.0 && action == Spawn ==> old(workerThreadsCount.value) < maxSize
      ensures killThreshold > 0.0 && action == Kill ==> old(workerThreadsCount.value) > minSize
      ensures killThreshold > 0.0 && old(workerThreadsCount.value) <= maxSize ==> workerThreadsCount.value <= maxSize
    {
      var workers := workerThreadsCount.Value();
      var t := Tick(killScore, idle, |queue|, workers, minSize, maxSize, killThreshold);
      action := t.action;
      match action {
        case Kill => KillThread();
        case Spawn => SpawnThread();
        case NoAction =>
      }
      killScore := t.score;
    }
  }
}
