/**
 * `Uploader.file_sender` (files_sender.py:80-88), the default worker.  The
 * file system and the server are not modelled: a `Host` says which paths name
 * existing regular files and what the server answers to the upload of each.
 */
module Sender {
  import opened Seqs
  import opened Outcomes
  import opened Tallying

  /** The status code and reason phrase of the server's answer to a POST. */
  datatype Response = Response(statusCode: int, reason: string)

  /** The environment of an upload: the existing regular files and the server's answer for each path. */
  datatype Host = Host(files: set<string>, post: string -> Response)

  const NotFoundCode: int := 404
  const NotFoundReason: string := "File not found"

  /** Uploads `path`, or reports 404 "File not found" without contacting the server when it is not a file. */
  function FileSender(host: Host, path: string): (o: Outcome)
    ensures o.file == path
    ensures path !in host.files ==> o == Outcome(path, 404, "File not found")
    ensures path in host.files ==> o.code == host.post(path).statusCode && o.reason == host.post(path).reason
  {
    if path in host.files then
      var r := host.post(path);
      Outcome(path, r.statusCode, r.reason)
    else
      Outcome(path, NotFoundCode, NotFoundReason)
  }

  /** `self.file_sender` bound to a host: the worker an `Uploader` uses when none is given. */
  function DefaultWorker(host: Host): string -> Outcome
  {
    p => FileSender(host, p)
  }

  /** The default worker names the file it was given. */
  lemma DefaultWorkerKeepsPaths(host: Host, files: seq<string>)
    ensures KeepsPaths(DefaultWorker(host), files)
  {
  }

  /**
   * A full run over files none of which exists records every one of them
   * under 404 and counts no success.
   */
  lemma MissingFilesRun(t: Tally, host: Host, files: seq<string>, results: seq<Outcome>)
    requires forall f :: f in files ==> f !in host.files
    requires IsPoolOutput(results, DefaultWorker(host), files)
    ensures RecordAll(t, results).errors == t.errors + map f | f in files :: 404
    ensures RecordAll(t, results).done == t.done
    ensures RecordAll(t, results).complete == t.complete + |files|
  {
    var worker := DefaultWorker(host);
    FullRun(t, worker, files, results);
    NoneSucceed(host, files);
    var missing := map f | f in files :: 404;
    var expected := t.errors + missing;
    var r := RecordAll(t, results);
    forall f ensures Lookup(r.errors, f) == Lookup(expected, f) {
      if f in files {
        assert worker(f) == Outcome(f, 404, "File not found");
        assert f in missing;
      } else {
        assert f !in missing;
      }
    }
    LookupExtensional(r.errors, expected);
  }

  /** The default worker succeeds on no missing file. */
  lemma {:induction false} NoneSucceed(host: Host, files: seq<string>)
    requires forall f :: f in files ==> f !in host.files
    ensures Successes(Map(DefaultWorker(host), files)) == 0
    decreases |files|
  {
    if files != [] {
      var n := |files| - 1;
      NoneSucceed(host, files[..n]);
      assert Map(DefaultWorker(host), files)[..n] == Map(DefaultWorker(host), files[..n]);
    }
  }
}
