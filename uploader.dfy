/**
 * The `Uploader` class (files_sender.py:26-97).  The process pool is not
 * modelled: `Start` receives the sequence of results the pool delivers, in
 * completion order, and the moment a concurrent `stop()` is observed.  Clock
 * readings are integer ticks supplied by the caller.
 */
module Uploading {
  import opened Wrappers
  import opened Seqs
  import opened Outcomes
  import opened Tallying
  import opened Sender

  /** What `start` ends with: `None`, the termination message, or the pool's refusal of the worker count. */
  datatype RunStatus = Completed | Terminated(message: string) | Raised(error: string)

  const TerminatedMessage: string := "The pool was terminated"
  const BadWorkerCount: string := "Number of processes must be at least 1"

  /** Whether the stop request is seen before the results run out. */
  predicate StopsEarly(count: nat, stopAfter: Option<nat>)
  {
    stopAfter.Some? && stopAfter.value < count
  }

  /** How many results a run consumes when the stop request is seen after result `stopAfter`. */
  function Processed(count: nat, stopAfter: Option<nat>): (n: nat)
    ensures n <= count
    ensures n < count ==> stopAfter == Some(n - 1)
    ensures StopsEarly(count, stopAfter) ==> n == stopAfter.value + 1
    ensures !StopsEarly(count, stopAfter) ==> n == count
  {
    if StopsEarly(count, stopAfter) then stopAfter.value + 1 else count
  }

  class Uploader {
    var filesList: seq<string>
    var numProcess: int
    /** The progress queue shared with the caller; the head is the oldest event. */
    var queue: seq<Event>
    var worker: string -> Outcome
    var errors: map<string, int>
    var done: nat
    var complete: nat
    var startTime: Option<int>
    var endTime: Option<int>
    var isTerminate: bool

    /** `done + len(errors) <= complete`, and an end time only after a start time. */
    ghost predicate Valid()
      reads this
    {
      Balanced(Report()) &&
      (endTime.Some? ==> startTime.Some?)
    }

    /** The report fields as one value. */
    function Report(): Tally
      reads this
    {
      Tally(errors, done, complete, queue)
    }

    /** `Uploader(files, num_process, queue, worker=None)`: an empty report, no times, no stop request. */
    constructor (files: seq<string>, numProcess: int, queue: seq<Event>, worker: Option<string -> Outcome>, host: Host)
      ensures Valid()
      ensures filesList == files && this.numProcess == numProcess && this.queue == queue
      ensures this.worker == if worker.Some? then worker.value else DefaultWorker(host)
      ensures errors == map[] && done == 0 && complete == 0
      ensures startTime == None && endTime == None && !isTerminate
      ensures LoadingTime() == 0
    {
      filesList := files;
      this.numProcess := numProcess;
      this.queue := queue;
      var chosen: string -> Outcome := if worker.Some? then worker.value else DefaultWorker(host);
      this.worker := chosen;
      errors := map[];
      done := 0;
      complete := 0;
      startTime := None;
      endTime := None;
      isTerminate := false;
    }

    /** Requests termination; the running `Start` sees it after the result it is processing. */
    method Stop()
      modifies this`isTerminate
      ensures isTerminate
    {
      isTerminate := true;
    }

    /** Classifies one result and queues its event (the body of the loop in `start`); `RecordOne` says what changes. */
    method Classify(o: Outcome)
      modifies this`errors, this`done, this`complete, this`queue
      ensures Report() == Record(old(Report()), o)
    {
      if o.code != OK {
        errors := errors[o.file := o.code];
        queue := queue + [Error(o.file, o.reason)];
      } else {
        done := done + 1;
        queue := queue + [Done(o.file, o.reason)];
      }
      complete := complete + 1;
    }

    /**
     * Runs the upload.  `results` is what the pool delivers: the worker's
     * result for every file, in completion order.  `stopAfter` is the index of
     * the result after which the loop first sees a stop request, if it does.
     */
    method Start(results: seq<Outcome>, stopAfter: Option<nat>, clockStart: int, clockEnd: int)
      returns (status: RunStatus)
      requires Valid()
      requires IsPoolOutput(results, worker, filesList)
      modifies this
      ensures Valid()
      ensures filesList == old(filesList) && numProcess == old(numProcess) && worker == old(worker)
      ensures startTime == Some(clockStart)
      ensures numProcess < 1 ==>
                status == Raised(BadWorkerCount) && Report() == old(Report())
                && endTime == old(endTime) && !isTerminate
      ensures numProcess >= 1 ==>
                var n := Processed(|results|, stopAfter);
                Report() == RecordAll(old(Report()), results[..n])
                && complete == old(complete) + n && |queue| == |old(queue)| + n && n <= |filesList|
      ensures numProcess >= 1 ==>
                endTime == Some(clockEnd) && LoadingTime() == clockEnd - clockStart
                && isTerminate == StopsEarly(|results|, stopAfter)
                && status == if StopsEarly(|results|, stopAfter) then Terminated(TerminatedMessage) else Completed
    {
      startTime := Some(clockStart);
      isTerminate := false;
      if numProcess < 1 {
        return Raised(BadWorkerCount);
      }
      PoolOutputLength(results, worker, filesList);
      var stopped := ConsumeResults(results, stopAfter);
      endTime := Some(clockEnd);
      status := if stopped then Terminated(TerminatedMessage) else Completed;
    }

    /**
     * The loop over the pool's results: classifies each one and, once a stop
     * request is seen after a result, consumes no more.
     */
    method ConsumeResults(results: seq<Outcome>, stopAfter: Option<nat>) returns (stopped: bool)
      requires Valid()
      requires !isTerminate
      modifies this`errors, this`done, this`complete, this`queue, this`isTerminate
      ensures Valid()
      ensures Report() == RecordAll(old(Report()), results[..Processed(|results|, stopAfter)])
      ensures stopped == isTerminate == StopsEarly(|results|, stopAfter)
    {
      ghost var initial := Report();
      var i := 0;
      stopped := false;
      while i < |results| && !stopped
        invariant 0 <= i <= |results|
        invariant Report() == RecordAll(initial, results[..i])
        invariant isTerminate == stopped
        invariant stopped ==> stopAfter == Some(i - 1)
        invariant !stopped && stopAfter.Some? ==> i <= stopAfter.value
      {
        Classify(results[i]);
        assert results[..i + 1][..i] == results[..i];
        if stopAfter == Some(i) {
          Stop();
        }
        stopped := isTerminate;
        i := i + 1;
      }
      assert Processed(|results|, stopAfter) == i;
    }

    /** The run's duration: 0 until the run has ended. */
    function LoadingTime(): (seconds: int)
      reads this
      requires Valid()
      ensures endTime.None? ==> seconds == 0
      ensures endTime.Some? ==> seconds == endTime.value - startTime.value
    {
      if endTime.Some? then endTime.value - startTime.value else 0
    }

    /** Whether the progress queue still holds undrained events (not whether the run is going on). */
    function IsActive(): (active: bool)
      reads this
      ensures active <==> |queue| > 0
    {
      queue != []
    }
  }
}
