# Uploader: a verified model of the parallel file uploader

The modelled repository uploads a list of files to a server with a
`multiprocessing.Pool`. Its `Uploader` class has three jobs. It hands every
file to a worker function. It classifies each result as it arrives: status 200
bumps the `done` counter, and any other status is recorded in the `errors`
map under the file's path. It puts one progress event per result on a queue
shared with the caller. A `stop()` request makes the loop quit after the
result it is handling. The test module adds a deterministic worker. That
worker refuses paths containing '7', answers "Not Found" for paths containing
'9', and uploads everything else.

This Dafny project models the sequential core of that design:

- `outcomes.dfy` (`Outcomes`): the `(file, status_code, status_name)` result
  and the two progress events `{'file', 'done'}` and `{'file', 'error'}`.
- `tally.dfy` (`Tallying`): the aggregation loop of `start` as a pure fold,
  `RecordAll`. Lemmas prove what a caller can rely on: one event per result,
  exact counts, the contents of the error map, and independence from the
  completion order. They also show that a full run handles every file
  exactly once.
- `sender.dfy` (`Sender`): `file_sender`, the default worker. The file system
  and the server are a `Host` value.
- `mock_sender.dfy` (`MockSender`): `mock_file_sender` and what a run with it
  produces.
- `uploader.dfy` (`Uploading`): the `Uploader` class. Its fields are updated
  in place by `Start`, `Stop` and `Classify`, and `Start` is proved to leave
  the report exactly as the fold `RecordAll` describes.
- `uploader_tests.dfy` (`UploaderTests`): the scenarios of `TestUploader`
  (`TestStart`, `TestFileNotFound`) written as client code, plus two
  scenarios derived from files_sender.py itself rather than from the tests
  (`EmptyRun`, an empty file list, and `StopAfterFirst`, a stop seen after
  the first result). They are proved for every order in which the pool can
  deliver results.
- `seqs.dfy`, `wrappers.dfy`: helpers (mapping over a sequence, permutations,
  `Option`).

The pool is represented by its output. `Start` receives `results`, which is
required to be a permutation (equal as multisets) of the worker applied to
`files_list`, because `imap_unordered` promises no order. A concurrent `stop()`
is represented by `stopAfter`, the index of the result after which the loop
first sees the flag. Clock readings are integer ticks passed to `Start`.

## Model

| member | source | states |
|---|---|---|
| `Outcomes.EventOf` | files_sender.py:55-66 | the queued event names the result's file, is a `done` event exactly when the status is 200, and carries the status name under `done` or `error` |
| `Tallying.Record` | files_sender.py:53-67 | classifying one result bumps the processed count by one, appends exactly its event, and keeps `done + len(errors) <= complete` |
| `Tallying.RecordOne` | files_sender.py:55-67 | status 200: `done` + 1, `errors` unchanged, one event carrying `'done': status_name`; any other status: `errors[file] = code`, `done` unchanged, one event carrying `'error': status_name`; always `complete` + 1 |
| `Tallying.RecordAll` | files_sender.py:52-67 | processing N results bumps the processed count by N, appends N events and keeps `done + len(errors) <= complete` |
| `Tallying.RecordAllEvents` | files_sender.py:55-66 | the queue ends as the old queue followed by one event per result, in processing order |
| `Tallying.RecordAllDone` | files_sender.py:61-62 | `done` grows by exactly the number of results with status 200 |
| `Tallying.RecordAllErrors` | files_sender.py:55-56 | a file's entry in `errors` is the code of its last failed result; a file with no failed result keeps its old entry or stays absent |
| `Tallying.RecordAllConcat` | files_sender.py:48-50 | `start` does not reset the report: two runs leave it as one run over both result sequences would |
| `Tallying.RecordAllPermutation` | files_sender.py:52 | if results for the same file agree, any completion order gives the same counts, the same error map and the same multiset of events |
| `Tallying.PoolOutputLength` | files_sender.py:52 | the pool delivers exactly one result per file of the list |
| `Tallying.PoolOutputFromWorker` | files_sender.py:52 | each delivered result is the worker's result for the file it names, so results for one file agree |
| `Tallying.FullRun` | files_sender.py:51-67 | an unterminated run over N files adds N to the processed count and N events; `done` grows by the files uploaded with status 200; each failing file maps to its worker status code and no other entry changes |
| `Tallying.FullRunEventsCoverFiles` | files_sender.py:52-66 | in a full run the queued events name each file of the list exactly as often as the list does: no lost, duplicate or spurious events |
| `Tallying.ExactBalance` | files_sender.py:55-67 | with distinct file names not yet in the error map, `done + len(errors) == complete` is kept |
| `Tallying.FullRunExact` | files_sender.py:34-67 | a full run from a fresh report over distinct files ends with `done + len(errors) == complete == len(files_list)` |
| `Sender.FileSender` | files_sender.py:80-88 | the result names the given path; a path that is not an existing file gives `(path, 404, 'File not found')`; otherwise the server's status and reason |
| `Sender.DefaultWorkerKeepsPaths` | files_sender.py:86-88 | the default worker's result always names the file it was given |
| `Sender.NoneSucceed` | files_sender.py:87-88 | over files that do not exist, the default worker succeeds on none |
| `Sender.MissingFilesRun` | files_sender.py:87-88 | a full run over missing files maps each of them to 404 in `errors` and leaves `done` unchanged |
| `MockSender.MockFileSender` | test_sender.py:17-22 | the result names the path; '7' gives 403 Forbidden and takes precedence over '9'; '9' alone gives 404 Not Found; neither gives 200 OK; status 200 exactly when neither digit occurs |
| `MockSender.MockSuccesses` | test_sender.py:17-22 | the mock worker succeeds on exactly the paths containing neither '7' nor '9' |
| `MockSender.MockRun` | test_sender.py:8-24 | in a full run with the mock worker, `done` grows by the number of clean paths; files with '7' map to 403 and files with '9' but not '7' map to 404 |
| `MockSender.MockScenario` | test_sender.py:17-22 | files "0.txt", "7.txt", "9.txt" in any completion order give `done == 1`, `errors == {"7.txt": 403, "9.txt": 404}` and three events |
| `Uploading.Processed` | files_sender.py:69-73 | a run never consumes more results than the pool has; when the stop is seen after result `k` with `k` below the count, exactly `k + 1` results are consumed; otherwise all of them are |
| `Uploading.Uploader.constructor` | files_sender.py:29-39 | the list, worker count and queue are stored; the worker defaults to `file_sender`; the report is empty; no times are set; no stop is requested |
| `Uploading.Uploader.Stop` | files_sender.py:77-78 | sets the terminate flag and nothing else |
| `Uploading.Uploader.Classify` | files_sender.py:53-67 | updates `errors`, `done`, `complete` and the queue in place to exactly the report `Tallying.Record` gives for one result, and changes nothing else |
| `Uploading.Uploader.ConsumeResults` | files_sender.py:52-73 | the report becomes the fold of the consumed prefix; the loop stops right after the result that revealed a stop request |
| `Uploading.Uploader.Start` | files_sender.py:48-75 | resets only the start time and the flag; a worker count below 1 is refused by the pool; otherwise the report is the fold over the processed results (at most `len(files_list)`), the end time is set, and the termination message is returned exactly when the run stopped early |
| `Uploading.Uploader.LoadingTime` | files_sender.py:93-97 | 0 while no end time is set, otherwise end time minus start time |
| `Uploading.Uploader.IsActive` | files_sender.py:90-91 | true exactly when the progress queue is not empty |
| `UploaderTests.Drain` | test_sender.py:53-55 | the caller's polling loop receives every queued event in order and leaves the uploader inactive |
| `UploaderTests.TestStart` | test_sender.py:41-56 | seven missing files give `errors` mapping each to 404, and the caller drains exactly seven events |
| `UploaderTests.TestFileNotFound` | test_sender.py:29-33 | `file_sender('3.txt')` on a missing file returns `('3.txt', 404, 'File not found')` |
| `UploaderTests.EmptyRun` | files_sender.py:51-75 | an empty file list completes with `done == 0`, empty `errors`, no events and the end time set |
| `UploaderTests.StopAfterFirst` | files_sender.py:67-73 | a stop seen after the first result leaves one processed result and one event, and returns the termination message |

## Left out

- The process pool, `imap_unordered` scheduling and `pool.terminate()` (files_sender.py:51-52, 71) are concurrency. The pool is represented by its output sequence, any permutation of the worker's results. Termination is represented by the loop consuming no further results.
- The race between `stop()` and the loop is represented only as the index `stopAfter` at which the loop first sees the flag. A `stop()` issued before `start` is overwritten by `start`, as in the code.
- The real upload in `file_sender` (`os.path.isfile`, `open`, `ntpath.split`, `requests.post`, `time.sleep`; files_sender.py:81-86) is I/O. It is represented by `Host`: a set of existing files and the server's answer for each path. The class attribute `server_url` and the multipart field name are part of that answer.
- Sender.FileSender: the server's answer is keyed by the full path, while the real request sends only the base name and the file content. The model can therefore give different answers to two paths the server cannot tell apart (same base name, same content), and it gives one fixed answer per path whatever the file holds.
- Exceptions raised by a worker (for example a connection error from `requests`) would propagate out of `start` in the source. Workers are total functions in the model.
- `datetime.utcnow()` and the float from `total_seconds()` (files_sender.py:49, 72, 75, 96) become integer ticks supplied by the caller.
- `get_loading_time` during a second run would pair the new start time with the previous end time. `Start` is atomic in the model, so that intermediate state is never observable.
- The `Manager().Queue()` synchronisation is not modelled. The queue is a sequence field. The caller's `q.get()` is modelled in `UploaderTests.Drain` as removing the head of that sequence.
- `num_process=None`, which lets the pool pick the CPU count, is not modelled: the worker count is an integer. A count below 1 is modelled as the pool's `ValueError`, returned as `Raised`.
- `queue=None`, which the tests pass when they only call `file_sender`, is not modelled. `file_sender` is a function that needs no uploader.
- `_is_terminate` starts as `None` in the source and as `false` in the model. Both are false for the `if` that reads the flag.
- `__str__` (files_sender.py:41-46), the `__main__` demonstration (files_sender.py:100-119), the `print`, `sleep` and `current_process` calls in the test worker (test_sender.py:16, 23), and the `mock.patch` test `test_send_file` (test_sender.py:35-39) are formatting, demonstration or foreign-library mocking.
- In the code, `done + len(errors)` equals the processed count only when file names are distinct, because a repeated failing file overwrites its entry. The model follows the code: the invariant is `<=` (`Tallying.RecordAll`), and equality is proved for distinct files (`Tallying.FullRunExact`).
- The code does not stop a second call of `start`. The model allows it and proves that the counts carry over (`Tallying.RecordAllConcat`).
