/** Model of lib/threadz/batch.rb (with the JobError of lib/threadz/errors.rb).

    A batch counts its outstanding jobs, buffers them while it is latent and not
    started, wraps each dispatched job in a retry loop that records faults and
    consults the error handler, and fires its completion blocks when the count
    returns to zero. The thread pool is seen only as the FIFO of wrappers handed
    to it (`inPool`); running one wrapper to its end is one atomic step, and so
    is every public call. The source does not lock decrement-then-check (the lock
    at lines 135 and 139 is commented out): treating the wrapper's end as atomic
    is an assumption of this model, not a property of the code. */
module Batches {
  import opened Wrappers
  import opened AtomicIntegers
  import opened Controls

  /** What one call of a job does. */
  datatype Outcome = Ok | Raised(fault: Fault)

  /** A callable job: `outcomes[k]` is what its (k+1)-th call does, and every
      call past the end of that list behaves like `later`. */
  datatype Job = Job(id: nat, outcomes: seq<Outcome>, later: Outcome)
  {
    function Attempt(k: nat): Outcome
    {
      if k < |outcomes| then outcomes[k] else later
    }
  }

  /** A value given to `push`: something that responds to `call`, an Array of
      values, or anything else. */
  datatype JobValue = Call(job: Job) | Array(items: seq<JobValue>) | Uncallable

  /** What an error handler does with a fault and the control: returns without
      asking for a retry, calls `control.try_again(limit)` and returns, or raises. */
  datatype HandlerAction = Proceed | TryAgain(limit: int) | Raise(fault: Fault)

  /** The handler sees the fault and the control's error list (its retry flag is
      always false when the handler is called, since it is reset before each attempt). */
  type ErrorHandler = (Fault, seq<Fault>) -> HandlerAction

  /** The `:error_handler` option: absent (or nil), callable, or not callable. */
  datatype HandlerOption = NoHandler | Handler(handler: ErrorHandler) | NotCallableHandler

  /** `Batch.new` options; an absent or nil `:latent` is `false`. */
  datatype BatchOptions = BatchOptions(latent: bool, errorHandler: HandlerOption)

  /** Identity of a block given to `when_done`. */
  type BlockId = nat

  // ---------------------------------------------------------------------------
  // push: which jobs a pushed value contributes

  /** The jobs `push` accepts from a value, in order, and whether it got through
      the whole value without meeting something that is not callable. */
  datatype Scan = Scan(jobs: seq<Job>, valid: bool)

  /** `push` on one value: a callable is one job, an Array pushes its elements in
      order and stops at the first one that raises, anything else raises. */
  function ScanValue(v: JobValue): Scan
    decreases v, 1
  {
    match v
    case Call(j) => Scan([j], true)
    case Array(items) => ScanItems(items)
    case Uncallable => Scan([], false)
  }

  /** `items.each { |j| self << j }`, read from the last element backwards. */
  function ScanItems(items: seq<JobValue>): Scan
    decreases items, 0
  {
    if items == [] then Scan([], true)
    else
      var before := ScanItems(items[..|items| - 1]);
      if !before.valid then before
      else
        var last := ScanValue(items[|items| - 1]);
        Scan(before.jobs + last.jobs, last.valid)
  }

  /** Reference definition: every callable leaf of a value, in order. */
  function Leaves(v: JobValue): seq<Job>
    decreases v, 1
  {
    match v
    case Call(j) => [j]
    case Array(items) => LeavesOfItems(items)
    case Uncallable => []
  }

  function LeavesOfItems(items: seq<JobValue>): seq<Job>
    decreases items, 0
  {
    if items == [] then []
    else LeavesOfItems(items[..|items| - 1]) + Leaves(items[|items| - 1])
  }

  /** Reference definition: a value with nothing uncallable anywhere inside it. */
  predicate AllCallable(v: JobValue)
    decreases v, 1
  {
    match v
    case Call(_) => true
    case Array(items) => AllCallableItems(items)
    case Uncallable => false
  }

  predicate AllCallableItems(items: seq<JobValue>)
    decreases items, 0
  {
    items == [] || (AllCallableItems(items[..|items| - 1]) && AllCallable(items[|items| - 1]))
  }

  /** `push` succeeds exactly when the value holds nothing uncallable, and then
      it accepts every callable leaf in order; when it raises, the jobs it
      accepted first (and which stay pushed) are a prefix of those leaves. */
  lemma {:induction false} ScanMatchesLeaves(v: JobValue)
    ensures ScanValue(v).valid <==> AllCallable(v)
    ensures ScanValue(v).valid ==> ScanValue(v).jobs == Leaves(v)
    ensures ScanValue(v).jobs <= Leaves(v)
    decreases v, 1
  {
    match v
    case Call(_) =>
    case Array(items) => ScanItemsMatchesLeaves(items);
    case Uncallable =>
  }

  lemma {:induction false} ScanItemsMatchesLeaves(items: seq<JobValue>)
    ensures ScanItems(items).valid <==> AllCallableItems(items)
    ensures ScanItems(items).valid ==> ScanItems(items).jobs == LeavesOfItems(items)
    ensures ScanItems(items).jobs <= LeavesOfItems(items)
    decreases items, 0
  {
    if items != [] {
      var init := items[..|items| - 1];
      ScanItemsMatchesLeaves(init);
      ScanMatchesLeaves(items[|items| - 1]);
      var before := ScanItems(init);
      var last := ScanValue(items[|items| - 1]);
      if before.valid {
        assert before.jobs == LeavesOfItems(init);
        PrefixAppend(before.jobs, last.jobs, Leaves(items[|items| - 1]));
      } else {
        PrefixExtend(before.jobs, LeavesOfItems(init), Leaves(items[|items| - 1]));
      }
    }
  }

  lemma PrefixAppend<T>(a: seq<T>, b: seq<T>, c: seq<T>)
    requires b <= c
    ensures a + b <= a + c
  {
  }

  lemma PrefixExtend<T>(a: seq<T>, b: seq<T>, c: seq<T>)
    requires a <= b
    ensures a <= b + c
  {
  }

  /** Once an element has raised, the rest of the Array is never looked at. */
  lemma {:induction false} ScanItemsStops(items: seq<JobValue>, k: nat)
    requires k <= |items|
    requires !ScanItems(items[..k]).valid
    ensures ScanItems(items) == ScanItems(items[..k])
    decreases |items| - k
  {
    if k < |items| {
      assert items[..k + 1][..k] == items[..k];
      ScanItemsStops(items, k + 1);
    } else {
      assert items[..k] == items;
    }
  }

  // ---------------------------------------------------------------------------
  // send_to_threadpool: the retry loop of one wrapper

  /** How the wrapper of one dispatched job ends: the last attempt returned; the
      last attempt raised and no retry was asked for (both go on to the
      decrement); the handler raised, so the exception leaves the wrapper before
      the decrement; or the job is still being retried when the model's fuel is
      spent. */
  datatype WrapperEnd = Succeeded | Failed | HandlerRaised(fault: Fault) | StillRetrying
  {
    /** The wrapper reaches `@jobs_count.decrement`. */
    predicate Decrements()
    {
      Succeeded? || Failed?
    }
  }

  /** The faults recorded by one wrapper (its control's final error list) and how it ends. */
  datatype RetryRun = RetryRun(faults: seq<Fault>, end: WrapperEnd)

  /** Specification of the retry loop: attempts continue from the control's error
      list `prior`, with `fuel` attempts left to follow. The next call of the job
      is its (|prior|+1)-th, since every earlier call raised. */
  function Retry(job: Job, handler: Option<ErrorHandler>, prior: seq<Fault>, fuel: nat): RetryRun
    decreases fuel
  {
    if fuel == 0 then RetryRun(prior, StillRetrying)
    else
      match job.Attempt(|prior|)
      case Ok => RetryRun(prior, Succeeded)
      case Raised(e) =>
        var errs := prior + [e];
        match handler
        case None => RetryRun(errs, Failed)
        case Some(h) =>
          match h(e, errs)
          case Proceed => RetryRun(errs, Failed)
          case Raise(f) => RetryRun(errs, HandlerRaised(f))
          case TryAgain(limit) =>
            if |errs| < limit then Retry(job, handler, errs, fuel - 1) else RetryRun(errs, Failed)
  }

  /** Every failed attempt appends its own fault, in order, and nothing else is
      recorded; the wrapper decrements exactly when its last attempt returned or
      raised without a retry, and the attempts made never exceed the fuel. */
  lemma {:induction false} RetryRecordsEachFault(job: Job, handler: Option<ErrorHandler>, prior: seq<Fault>, fuel: nat)
    ensures var r := Retry(job, handler, prior, fuel);
      && prior <= r.faults
      && |r.faults| <= |prior| + fuel
      && (forall k :: |prior| <= k < |r.faults| ==> job.Attempt(k) == Raised(r.faults[k]))
      && (r.end.Succeeded? ==> job.Attempt(|r.faults|) == Ok)
      && (r.end.Failed? || r.end.HandlerRaised? ==> |prior| < |r.faults|)
      && (handler.None? && fuel > 0 ==> r.end.Decrements() && |r.faults| <= |prior| + 1)
    decreases fuel
  {
    if fuel > 0 {
      match job.Attempt(|prior|)
      case Ok =>
      case Raised(e) =>
        var errs := prior + [e];
        assert errs[|prior|] == e;
        if handler.Some? {
          match handler.value(e, errs)
          case Proceed =>
          case Raise(_) =>
          case TryAgain(limit) =>
            if |errs| < limit {
              RetryRecordsEachFault(job, handler, errs, fuel - 1);
              var r := Retry(job, handler, errs, fuel - 1);
              assert prior <= errs <= r.faults;
              forall k | |prior| <= k < |r.faults|
                ensures job.Attempt(k) == Raised(r.faults[k])
              {
                if k == |prior| {
                  assert r.faults[k] == errs[k];
                }
              }
            }
        }
    }
  }

  /** `n` copies of one fault. */
  function Repeat(e: Fault, n: nat): (r: seq<Fault>)
    ensures |r| == n && forall k :: 0 <= k < n ==> r[k] == e
  {
    seq(n, _ => e)
  }

  function Max(a: int, b: int): int
  {
    if a < b then b else a
  }

  /** A job whose every call raises `e`. */
  function AlwaysFails(id: nat, e: Fault): Job
  {
    Job(id, [], Raised(e))
  }

  /** A handler that calls `control.try_again(n)` on every fault. */
  function AlwaysTryAgain(n: int): ErrorHandler
  {
    (e: Fault, errs: seq<Fault>) => TryAgain(n)
  }

  /** The retry bound: a job that always fails, under a handler that calls
      `try_again(n)` every time, runs exactly max(n, 1) times, and the control
      ends with one error per run. Stated from any point of the loop: `p`
      attempts already made (p == 0 at the start, p < n after a retry). */
  lemma {:induction false} RetryBoundFrom(id: nat, e: Fault, n: int, p: nat, fuel: nat)
    requires p == 0 || p < n
    requires fuel >= Max(n, 1) - p
    ensures Retry(AlwaysFails(id, e), Some(AlwaysTryAgain(n)), Repeat(e, p), fuel)
         == RetryRun(Repeat(e, Max(n, 1)), Failed)
    decreases fuel
  {
    var job := AlwaysFails(id, e);
    var h := AlwaysTryAgain(n);
    assert job.Attempt(p) == Raised(e);
    assert h(e, Repeat(e, p + 1)) == TryAgain(n);
    assert Repeat(e, p) + [e] == Repeat(e, p + 1);
    if p + 1 < n {
      RetryBoundFrom(id, e, n, p + 1, fuel - 1);
    }
  }

  lemma RetryBound(id: nat, e: Fault, n: int, fuel: nat)
    requires fuel >= Max(n, 1)
    ensures Retry(AlwaysFails(id, e), Some(AlwaysTryAgain(n)), [], fuel)
         == RetryRun(Repeat(e, Max(n, 1)), Failed)
  {
    assert Repeat(e, 0) == [];
    RetryBoundFrom(id, e, n, 0, fuel);
  }

  /** A handler whose `try_again` limits never exceed `n` lets a wrapper make at
      most max(n - |prior|, 1) more attempts, so with that much fuel it always ends. */
  lemma {:induction false} RetryTerminates(job: Job, h: ErrorHandler, n: int, prior: seq<Fault>, fuel: nat)
    requires forall e, errs :: h(e, errs).TryAgain? ==> h(e, errs).limit <= n
    requires fuel >= 1 && fuel + |prior| >= n
    ensures Retry(job, Some(h), prior, fuel).end != StillRetrying
    ensures |Retry(job, Some(h), prior, fuel).faults| <= Max(n, |prior| + 1)
    decreases fuel
  {
    match job.Attempt(|prior|)
    case Ok =>
    case Raised(e) =>
      var errs := prior + [e];
      match h(e, errs)
      case Proceed =>
      case Raise(_) =>
      case TryAgain(limit) =>
        if |errs| < limit {
          RetryTerminates(job, h, n, errs, fuel - 1);
        }
  }

  // ---------------------------------------------------------------------------
  // wait_until_done

  /** What `wait_until_done` does: raises the deadlock RuntimeError, keeps its
      caller parked on the sleeper, raises JobError with the recorded errors, or
      returns. */
  datatype WaitResult = DeadlockError | Parked | JobError(errors: seq<Fault>) | Returned

  /** The decision `wait_until_done` makes once its caller runs on. */
  function AfterWait(errors: seq<Fault>, handler: Option<ErrorHandler>): (r: WaitResult)
    ensures r.JobError? <==> errors != [] && handler.None?
    ensures r.JobError? ==> r.errors == errors
    ensures !r.JobError? ==> r == Returned
  {
    if errors != [] && handler.None? then JobError(errors) else Returned
  }

  /** Result of `Batch.new`. */
  datatype NewBatchResult = Created(batch: Batch) | ArgumentError

  datatype PushResult = Pushed | NotAValidJob

  /** `Batch.new(threadpool, opts)`: a handler that does not respond to `call`
      raises ArgumentError; otherwise a fresh, empty batch. */
  method NewBatch(opts: BatchOptions) returns (r: NewBatchResult)
    ensures r.ArgumentError? <==> opts.errorHandler.NotCallableHandler?
    ensures r.Created? ==>
      && fresh(r.batch) && fresh(r.batch.jobsCount) && r.batch.Valid()
      && r.batch.latent == opts.latent
      && r.batch.handler == (if opts.errorHandler.Handler? then Some(opts.errorHandler.handler) else None)
      && r.batch.started == !opts.latent
      && r.batch.jobsCount.value == 0
      && r.batch.errors == [] && r.batch.whenDoneBlocks == []
  {
    match opts.errorHandler
    case NotCallableHandler =>
      r := ArgumentError;
    case NoHandler =>
      var b := new Batch(opts.latent, None);
      r := Created(b);
    case Handler(h) =>
      var b := new Batch(opts.latent, Some(h));
      r := Created(b);
  }

  class Batch {
    const latent: bool
    const handler: Option<ErrorHandler>
    /** `@jobs_count`: jobs pushed whose wrapper has not yet decremented. */
    const jobsCount: AtomicInteger
    /** `@started`. */
    var started: bool
    /** `@job_queue`: jobs buffered while the batch is latent and not started. */
    var jobQueue: seq<Job>
    /** Wrappers handed to the thread pool and not yet run, in dispatch order. */
    var inPool: seq<Job>
    /** `@when_done_blocks`. */
    var whenDoneBlocks: seq<BlockId>
    /** `@errors`: every fault of every attempt, in the order recorded. */
    var errors: seq<Fault>
    /** Blocks called so far, in call order (by `when_done` or by `handle_done`). */
    var called: seq<BlockId>
    /** `@sleeper.broadcast` calls so far. */
    var broadcasts: nat

    /** Every job `push` accepted, in order. */
    ghost var pushed: seq<Job>
    /** Every job handed to the pool, in order. */
    ghost var dispatched: seq<Job>
    /** Every wrapper whose run has ended, in order. */
    ghost var ended: seq<Job>
    /** Wrappers that ended without reaching the decrement (their handler raised,
        or they are still retrying beyond the model's fuel). */
    ghost var abandoned: nat

    /** The batch's bookkeeping invariant: the outstanding count is exactly the
        buffered jobs, the wrappers not yet run and the wrappers that never
        decrement, so it is never negative; jobs are dispatched in push order and
        each dispatched wrapper is either still queued or has ended, once. */
    ghost predicate Valid()
      reads this, jobsCount
    {
      && jobsCount.value == |jobQueue| + |inPool| + abandoned
      && (!latent ==> started)
      && (started ==> jobQueue == [])
      && pushed == dispatched + jobQueue
      && multiset(dispatched) == multiset(inPool) + multiset(ended)
    }

    constructor (latent: bool, handler: Option<ErrorHandler>)
      ensures Valid() && fresh(jobsCount)
      ensures this.latent == latent && this.handler == handler
      ensures started == !latent && jobsCount.value == 0
      ensures jobQueue == [] && inPool == [] && whenDoneBlocks == [] && errors == []
      ensures called == [] && broadcasts == 0
    {
      this.latent := latent;
      this.handler := handler;
      jobsCount := new AtomicInteger(0);
      started := !latent;
      jobQueue := [];
      inPool := [];
      whenDoneBlocks := [];
      errors := [];
      called := [];
      broadcasts := 0;
      pushed := [];
      dispatched := [];
      ended := [];
      abandoned := 0;
    }

    /** `completed?`: true iff no job is outstanding, i.e. nothing is buffered,
        queued at the pool, or stuck in a wrapper that never decrements. */
    method Completed() returns (done: bool)
      ensures done <==> jobsCount.value == 0
      ensures Valid() ==> jobsCount.value >= 0
      ensures Valid() ==> (done <==> jobQueue == [] && inPool == [] && abandoned == 0)
    {
      var n := jobsCount.Value();
      done := n == 0;
    }

    /** `errors`: a copy of the recorded faults. */
    method Errors() returns (es: seq<Fault>)
      ensures es == errors
    {
      es := errors;
    }

    /** `send_to_threadpool`: hands the job's wrapper to the pool's FIFO. */
    method SendToThreadpool(job: Job)
      modifies this`inPool, this`dispatched
      ensures inPool == old(inPool) + [job] && dispatched == old(dispatched) + [job]
    {
      inPool := inPool + [job];
      dispatched := dispatched + [job];
    }

    /** `push` of one callable: count it, then buffer it while latent and not
        started, otherwise dispatch it. */
    method PushJob(job: Job)
      requires Valid()
      modifies this`jobQueue, this`inPool, this`dispatched, this`pushed, jobsCount
      ensures Valid()
      ensures Accepted(old(jobsCount.value), old(pushed), old(jobQueue), old(inPool), old(dispatched), [job])
    {
      jobsCount.Increment();
      pushed := pushed + [job];
      if latent && !started {
        jobQueue := jobQueue + [job];
      } else {
        SendToThreadpool(job);
      }
    }

    /** `push` / `<<`: an Array pushes each element in order, recursively; a
        callable is counted and buffered or dispatched; anything else raises,
        leaving pushed whatever came before it. */
    method Push(v: JobValue) returns (r: PushResult)
      requires Valid()
      modifies this`jobQueue, this`inPool, this`dispatched, this`pushed, jobsCount
      ensures Valid()
      ensures r == (if ScanValue(v).valid then Pushed else NotAValidJob)
      ensures Accepted(old(jobsCount.value), old(pushed), old(jobQueue), old(inPool), old(dispatched), ScanValue(v).jobs)
      decreases v, 1
    {
      match v
      case Call(j) =>
        PushJob(j);
        r := Pushed;
      case Uncallable =>
        r := NotAValidJob;
      case Array(items) =>
        r := PushItems(items);
    }

    /** `job.each { |j| self << j }`: stops at the first element that raises. */
    method PushItems(items: seq<JobValue>) returns (r: PushResult)
      requires Valid()
      modifies this`jobQueue, this`inPool, this`dispatched, this`pushed, jobsCount
      ensures Valid()
      ensures r == (if ScanItems(items).valid then Pushed else NotAValidJob)
      ensures Accepted(old(jobsCount.value), old(pushed), old(jobQueue), old(inPool), old(dispatched), ScanItems(items).jobs)
      decreases items, 0
    {
      var k := 0;
      r := Pushed;
      assert items[..0] == [];
      while k < |items|
        invariant 0 <= k <= |items|
        invariant Valid()
        invariant r == Pushed && ScanItems(items[..k]).valid
        invariant Accepted(old(jobsCount.value), old(pushed), old(jobQueue), old(inPool), old(dispatched), ScanItems(items[..k]).jobs)
      {
        ghost var before := ScanItems(items[..k]).jobs;
        assert items[..k + 1][..k] == items[..k];
        assert ScanItems(items[..k + 1])
            == Scan(before + ScanValue(items[k]).jobs, ScanValue(items[k]).valid);
        ghost var c1, pu1, q1, p1, d1 := jobsCount.value, pushed, jobQueue, inPool, dispatched;
        r := Push(items[k]);
        AcceptedTrans(old(jobsCount.value), old(pushed), old(jobQueue), old(inPool), old(dispatched), before,
          c1, pu1, q1, p1, d1, ScanValue(items[k]).jobs);
        k := k + 1;
        if r == NotAValidJob {
          ScanItemsStops(items, k);
          return;
        }
      }
      assert items[..k] == items;
    }

    /** The state reached from the given earlier one by accepting `jobs`: each is
        counted and recorded as pushed, and it is buffered while the batch is
        latent and not started, or handed to the pool otherwise. */
    ghost predicate Accepted(c0: int, pu0: seq<Job>, q0: seq<Job>, p0: seq<Job>, d0: seq<Job>, jobs: seq<Job>)
      reads this, jobsCount
    {
      && jobsCount.value == c0 + |jobs|
      && pushed == pu0 + jobs
      && (latent && !started ==> jobQueue == q0 + jobs && inPool == p0 && dispatched == d0)
      && (!(latent && !started) ==> inPool == p0 + jobs && dispatched == d0 + jobs && jobQueue == q0)
    }

    /** Accepting `a` and then `b` is accepting `a + b`. */
    lemma AcceptedTrans(c0: int, pu0: seq<Job>, q0: seq<Job>, p0: seq<Job>, d0: seq<Job>, a: seq<Job>,
                        c1: int, pu1: seq<Job>, q1: seq<Job>, p1: seq<Job>, d1: seq<Job>, b: seq<Job>)
      requires c1 == c0 + |a| && pu1 == pu0 + a
      requires latent && !started ==> q1 == q0 + a && p1 == p0 && d1 == d0
      requires !(latent && !started) ==> p1 == p0 + a && d1 == d0 + a && q1 == q0
      requires Accepted(c1, pu1, q1, p1, d1, b)
      ensures Accepted(c0, pu0, q0, p0, d0, a + b)
    {
    }

    /** `start`: on a latent batch, mark it started and dispatch every buffered
        job once, in FIFO order, leaving the buffer empty (a second call finds
        nothing to dispatch); on a batch that is not latent, change nothing. */
    method Start() returns (r: bool)
      requires Valid()
      modifies this`started, this`jobQueue, this`inPool, this`dispatched
      ensures Valid()
      ensures r == latent
      ensures latent ==> (started && jobQueue == []
        && inPool == old(inPool) + old(jobQueue) && dispatched == old(dispatched) + old(jobQueue))
      ensures !latent ==> (started == old(started) && jobQueue == old(jobQueue)
        && inPool == old(inPool) && dispatched == old(dispatched))
    {
      if latent {
        started := true;
        while jobQueue != []
          invariant pushed == dispatched + jobQueue
          invariant inPool + jobQueue == old(inPool) + old(jobQueue)
          invariant dispatched + jobQueue == old(dispatched) + old(jobQueue)
          invariant multiset(dispatched) == multiset(inPool) + multiset(ended)
          modifies this`jobQueue, this`inPool, this`dispatched
          decreases |jobQueue|
        {
          var job := jobQueue[0];
          assert jobQueue == [job] + jobQueue[1..];
          jobQueue := jobQueue[1..];
          SendToThreadpool(job);
        }
        r := true;
      } else {
        r := false;
      }
    }

    /** `when_done`: on a completed batch the block is called at once and not
        stored; otherwise it is registered, after the blocks already there. */
    method WhenDone(block: BlockId)
      requires Valid()
      modifies this`whenDoneBlocks, this`called
      ensures Valid()
      ensures jobsCount.value == 0 ==> called == old(called) + [block] && whenDoneBlocks == old(whenDoneBlocks)
      ensures jobsCount.value != 0 ==> whenDoneBlocks == old(whenDoneBlocks) + [block] && called == old(called)
    {
      var done := Completed();
      if done {
        called := called + [block];
      } else {
        whenDoneBlocks := whenDoneBlocks + [block];
      }
    }

    /** `handle_done`: broadcast, call every registered block in registration
        order, then forget them. */
    method HandleDone()
      modifies this`broadcasts, this`called, this`whenDoneBlocks
      ensures broadcasts == old(broadcasts) + 1
      ensures called == old(called) + old(whenDoneBlocks)
      ensures whenDoneBlocks == []
    {
      broadcasts := broadcasts + 1;
      var k := 0;
      while k < |whenDoneBlocks|
        invariant 0 <= k <= |whenDoneBlocks|
        invariant called == old(called) + whenDoneBlocks[..k]
        modifies this`called
      {
        called := called + [whenDoneBlocks[k]];
        k := k + 1;
      }
      assert whenDoneBlocks[..k] == whenDoneBlocks;
      whenDoneBlocks := [];
    }

    /** A worker takes the `i`-th queued wrapper out of the pool's queue to run it. */
    method TakeWrapper(i: nat) returns (job: Job)
      requires i < |inPool|
      modifies this`inPool, this`ended
      ensures job == old(inPool[i])
      ensures inPool == old(inPool[..i] + inPool[i + 1..]) && ended == old(ended) + [job]
      ensures multiset(inPool) + multiset(ended) == old(multiset(inPool) + multiset(ended))
    {
      job := inPool[i];
      assert inPool == inPool[..i] + [job] + inPool[i + 1..];
      inPool := inPool[..i] + inPool[i + 1..];
      ended := ended + [job];
    }

    /** The `begin ... rescue ... retry ... end` part of the wrapper: one Control
        for the whole dispatch; before every attempt its retry flag is reset;
        every fault is appended to the batch's errors and to the control's; the
        job is run again only if there is a handler and it left `retry?` true.
        `fuel` bounds the attempts the model follows. */
    method RetryLoop(job: Job, fuel: nat) returns (end: WrapperEnd)
      modifies this`errors
      ensures var run := Retry(job, handler, [], fuel);
        end == run.end && errors == old(errors) + run.faults
    {
      var control := new Control();
      var left: nat := fuel;
      var running := true;
      end := StillRetrying;
      while running
        invariant left <= fuel
        invariant errors == old(errors) + control.errors
        invariant running ==> Retry(job, handler, control.errors, left) == Retry(job, handler, [], fuel)
        invariant !running ==> RetryRun(control.errors, end) == Retry(job, handler, [], fuel)
        modifies this`errors, control
        decreases if running then left + 1 else 0
      {
        if left == 0 {
          end := StillRetrying;
          running := false;
        } else {
          left := left - 1;
          control.ResetRetry();
          var outcome := job.Attempt(|control.errors|);
          match outcome {
            case Ok =>
              end := Succeeded;
              running := false;
            case Raised(e) =>
              errors := errors + [e];
              control.errors := control.errors + [e];
              if handler.None? {
                end := Failed;
                running := false;
              } else {
                var action := handler.value(e, control.errors);
                match action {
                  case Raise(f) =>
                    end := HandlerRaised(f);
                    running := false;
                  case Proceed =>
                  case TryAgain(limit) =>
                    control.TryAgain(limit);
                }
                if running {
                  var again := control.IsRetry();
                  if !again {
                    end := Failed;
                    running := false;
                  }
                }
              }
          }
        }
      }
    }

    /** One worker runs the wrapper of the `i`-th queued job to its end: the retry
        loop, then the decrement and, if the count is now 0, `handle_done`. A
        wrapper whose handler raised leaves before the decrement, so its job stays
        outstanding for good. */
    method RunWrapper(i: nat, fuel: nat) returns (end: WrapperEnd)
      requires Valid() && i < |inPool|
      modifies this, jobsCount
      ensures Valid()
      ensures var run := Retry(old(inPool[i]), handler, [], fuel);
        end == run.end && errors == old(errors) + run.faults
      ensures inPool == old(inPool[..i] + inPool[i + 1..])
      ensures ended == old(ended) + [old(inPool[i])]
      ensures end.Decrements() ==> jobsCount.value == old(jobsCount.value) - 1 && abandoned == old(abandoned)
      ensures !end.Decrements() ==> jobsCount.value == old(jobsCount.value) && abandoned == old(abandoned) + 1
      ensures end.Decrements() && jobsCount.value == 0 ==>
        broadcasts == old(broadcasts) + 1 && called == old(called) + old(whenDoneBlocks) && whenDoneBlocks == []
      ensures !(end.Decrements() && jobsCount.value == 0) ==>
        broadcasts == old(broadcasts) && called == old(called) && whenDoneBlocks == old(whenDoneBlocks)
      ensures started == old(started) && jobQueue == old(jobQueue)
      ensures pushed == old(pushed) && dispatched == old(dispatched)
    {
      var job := TakeWrapper(i);
      end := RetryLoop(job, fuel);

      if end.Decrements() {
        jobsCount.Decrement();
        var done := Completed();
        if done {
          HandleDone();
        }
      } else {
        abandoned := abandoned + 1;
      }
    }

    /** `wait_until_done(timeout:)`: raises the deadlock error iff the batch is
        latent and was never started; otherwise a caller of a batch that is not
        complete stays parked unless its positive timeout has run out
        (`timedOut`, chosen by the scheduler); a caller that runs on raises
        JobError with a copy of the errors iff some were recorded and there is
        no handler. A timeout of 0 or nil waits without bound. */
    method WaitUntilDone(timeout: real, timedOut: bool) returns (r: WaitResult)
      ensures r.DeadlockError? <==> latent && !started
      ensures r.Parked? <==> !(latent && !started) && jobsCount.value != 0 && !(timeout > 0.0 && timedOut)
      ensures !r.DeadlockError? && !r.Parked? ==> r == AfterWait(errors, handler)
    {
      if latent && !started {
        return DeadlockError;
      }
      var done := Completed();
      if !done && !(timeout > 0.0 && timedOut) {
        return Parked;
      }
      var es := Errors();
      r := AfterWait(es, handler);
    }

    /** A parked `wait_until_done` caller resumed by the completion broadcast:
        it makes the error decision on the errors recorded by then. */
    method ResumeWait() returns (r: WaitResult)
      ensures r == AfterWait(errors, handler)
      ensures handler.Some? ==> r == Returned
    {
      var es := Errors();
      r := AfterWait(es, handler);
    }
  }
}
