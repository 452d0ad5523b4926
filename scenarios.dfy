/** Client scenarios in the manner of spec/threadz_spec.rb: what a caller can
    conclude from the contracts of the batch alone. */
module Scenarios {
  import opened Wrappers
  import opened Batches

  /** A job whose first call returns. */
  function Quick(id: nat): (j: Job)
    ensures j.Attempt(0) == Ok
  {
    Job(id, [Ok], Ok)
  }

  /** "should support latent batches": nothing is dispatched before `start`,
      and waiting then would deadlock; `start` dispatches the jobs in push
      order, and a second `start` dispatches nothing more. */
  method LatentBatch()
  {
    var b := new Batch(true, None);
    var r := b.Push(Call(Quick(1)));
    r := b.Push(Call(Quick(2)));
    assert b.inPool == [] && b.jobQueue == [Quick(1), Quick(2)];
    var w := b.WaitUntilDone(0.0, false);
    assert w == DeadlockError;

    var s := b.Start();
    assert s && b.jobQueue == [] && b.inPool == [Quick(1), Quick(2)];
    s := b.Start();
    assert s && b.inPool == [Quick(1), Quick(2)];
  }

  /** A block registered before completion fires once, when the wrapper
      decrements the count to 0, together with one broadcast. */
  method CompletionFiresOnce()
  {
    var b := new Batch(false, None);
    var r := b.Push(Call(Quick(1)));
    b.WhenDone(7);
    assert b.whenDoneBlocks == [7] && b.called == [] && b.broadcasts == 0;
    assert b.inPool == [Quick(1)] && b.jobsCount.value == 1;
    assert Retry(Quick(1), None, [], 1).end == Succeeded;

    var end := b.RunWrapper(0, 1);
    assert end == Succeeded && b.jobsCount.value == 0;
    assert b.broadcasts == 1 && b.called == [7] && b.whenDoneBlocks == [];
  }

  /** A block registered on a complete batch runs at once and is not stored. */
  method LateBlockRunsAtOnce()
  {
    var b := new Batch(false, None);
    b.WhenDone(8);
    assert b.called == [8] && b.whenDoneBlocks == [];
  }

  /** "JobError containing exactly one error": with no handler, a job that
      always fails runs once and the waiting caller gets its one fault. */
  method UnhandledFault(e: Fault)
  {
    var b := new Batch(false, None);
    var r := b.Push(Call(AlwaysFails(1, e)));
    var end := b.RunWrapper(0, 5);
    assert end == Failed && b.errors == [e];
    var w := b.WaitUntilDone(0.0, false);
    assert w == JobError([e]);
  }

  /** A handler calling `try_again(3)` on every fault: the job runs three times,
      all three faults are recorded, the batch completes, and waiting returns. */
  method RetriedThreeTimes(e: Fault)
  {
    var b := new Batch(false, Some(AlwaysTryAgain(3)));
    var r := b.Push(Call(AlwaysFails(1, e)));
    RetryBound(1, e, 3, 10);
    var end := b.RunWrapper(0, 10);
    assert end == Failed && b.errors == Repeat(e, 3) && |b.errors| == 3;
    var done := b.Completed();
    assert done;
    var w := b.WaitUntilDone(0.0, false);
    assert w == Returned;
  }
}
