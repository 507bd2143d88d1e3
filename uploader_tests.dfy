/**
 * The scenarios of `TestUploader` (test_sender.py:27-56), written as client
 * code of the `Uploader` class and proved for every completion order the
 * pool may produce.
 */
module UploaderTests {
  import opened Wrappers
  import opened Seqs
  import opened Outcomes
  import opened Tallying
  import opened Sender
  import opened Uploading

  /** The caller's drain loop: takes events off the queue while the uploader reports it active. */
  method Drain(u: Uploader) returns (received: seq<Event>)
    modifies u`queue
    ensures received == old(u.queue)
    ensures u.queue == [] && !u.IsActive()
  {
    received := [];
    while u.IsActive()
      invariant received + u.queue == old(u.queue)
      decreases |u.queue|
    {
      received := received + [u.queue[0]];
      u.queue := u.queue[1..];
    }
  }

  const SevenFiles: seq<string> := ["0.txt", "1.txt", "2.txt", "3.txt", "4.txt", "5.txt", "6.txt"]

  /** The error map `test_start` expects. */
  const SevenNotFound: map<string, int> :=
    map["0.txt" := 404, "1.txt" := 404, "2.txt" := 404, "3.txt" := 404, "4.txt" := 404, "5.txt" := 404, "6.txt" := 404]

  lemma SevenNotFoundIsComprehension()
    ensures map[] + (map f | f in SevenFiles :: 404) == SevenNotFound
  {
  }

  /**
   * `test_start`: seven files that do not exist, two processes, the default
   * worker.  The error map sends each file to 404 and the caller drains
   * exactly seven events.
   */
  method TestStart(host: Host, results: seq<Outcome>) returns (errors: map<string, int>, received: seq<Event>)
    requires forall f :: f in SevenFiles ==> f !in host.files
    requires IsPoolOutput(results, DefaultWorker(host), SevenFiles)
    ensures errors == SevenNotFound
    ensures |received| == 7
  {
    var u := new Uploader(SevenFiles, 2, [], None, host);
    ghost var before := u.Report();
    PoolOutputLength(results, DefaultWorker(host), SevenFiles);
    var status := u.Start(results, None, 0, 1);
    assert results[..|results|] == results;
    assert u.Report() == RecordAll(before, results);
    MissingFilesRun(before, host, SevenFiles, results);
    SevenNotFoundIsComprehension();
    errors := u.errors;
    received := Drain(u);
  }

  /** `test_file_not_found`: a missing path yields 404 "File not found" and names the path. */
  lemma TestFileNotFound(host: Host)
    requires "3.txt" !in host.files
    ensures FileSender(host, "3.txt") == Outcome("3.txt", 404, "File not found")
  {
  }

  /**
   * An empty file list: the run completes at once, nothing is queued, the
   * report stays empty and the end time is set.
   */
  method EmptyRun(host: Host, results: seq<Outcome>, clockStart: int, clockEnd: int)
    returns (status: RunStatus, done: nat, errors: map<string, int>, queued: nat, loadingTime: int)
    requires IsPoolOutput(results, DefaultWorker(host), [])
    ensures status == Completed && done == 0 && errors == map[] && queued == 0
    ensures loadingTime == clockEnd - clockStart
  {
    var u := new Uploader([], 2, [], None, host);
    status := u.Start(results, None, clockStart, clockEnd);
    assert results == [];
    done, errors, queued, loadingTime := u.done, u.errors, |u.queue|, u.LoadingTime();
  }

  /**
   * A stop request seen after the first result of a run: exactly one result
   * is processed, one event is queued and the termination message comes back.
   */
  method StopAfterFirst(files: seq<string>, results: seq<Outcome>, host: Host)
    returns (status: RunStatus, complete: nat, queued: nat)
    requires |files| >= 1
    requires IsPoolOutput(results, DefaultWorker(host), files)
    ensures status == Terminated("The pool was terminated")
    ensures complete == 1 && queued == 1
  {
    var u := new Uploader(files, 2, [], None, host);
    PoolOutputLength(results, DefaultWorker(host), files);
    status := u.Start(results, Some(0), 0, 1);
    complete, queued := u.complete, |u.queue|;
  }
}
