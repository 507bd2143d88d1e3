/**
 * `mock_file_sender` (test_sender.py:8-24), the deterministic worker the
 * tests use: a path containing '7' is refused, one containing '9' is not
 * found, any other one is uploaded.  The delay and the print are left out.
 */
module MockSender {
  import opened Wrappers
  import opened Seqs
  import opened Outcomes
  import opened Tallying

  function MockFileSender(path: string): (o: Outcome)
    ensures o.file == path
    ensures '7' in path ==> o.code == 403 && o.reason == "Forbidden"
    ensures '7' !in path && '9' in path ==> o.code == 404 && o.reason == "Not Found"
    ensures '7' !in path && '9' !in path ==> o.code == 200 && o.reason == "OK"
    ensures Succeeded(o) <==> '7' !in path && '9' !in path
  {
    if '7' in path then Outcome(path, 403, "Forbidden")
    else if '9' in path then Outcome(path, 404, "Not Found")
    else Outcome(path, 200, "OK")
  }

  /** The number of paths containing neither '7' nor '9'. */
  function CountClean(files: seq<string>): (n: nat)
    ensures n <= |files|
    decreases |files|
  {
    if files == [] then 0
    else
      var p := files[|files| - 1];
      CountClean(files[..|files| - 1]) + (if '7' !in p && '9' !in p then 1 else 0)
  }

  /** The mock worker uploads exactly the clean paths. */
  lemma {:induction false} MockSuccesses(files: seq<string>)
    ensures Successes(Map(MockFileSender, files)) == CountClean(files)
    decreases |files|
  {
    if files != [] {
      var n := |files| - 1;
      MockSuccesses(files[..n]);
      assert Map(MockFileSender, files)[..n] == Map(MockFileSender, files[..n]);
    }
  }

  /**
   * In a full run with the mock worker the done count grows by the number of
   * files whose path contains neither '7' nor '9', and every other file is
   * recorded with 403 or 404.
   */
  lemma MockRun(t: Tally, files: seq<string>, results: seq<Outcome>)
    requires IsPoolOutput(results, MockFileSender, files)
    ensures RecordAll(t, results).done == t.done + CountClean(files)
    ensures forall f :: f in files && '7' in f ==> Lookup(RecordAll(t, results).errors, f) == Some(403)
    ensures forall f :: f in files && '7' !in f && '9' in f ==> Lookup(RecordAll(t, results).errors, f) == Some(404)
  {
    FullRun(t, MockFileSender, files, results);
    MockSuccesses(files);
  }

  const ScenarioFiles: seq<string> := ["0.txt", "7.txt", "9.txt"]

  /** What the mock worker answers for each file of the scenario. */
  lemma ScenarioOutcomes()
    ensures MockFileSender("0.txt").code == 200
    ensures MockFileSender("7.txt").code == 403
    ensures MockFileSender("9.txt").code == 404
    ensures CountClean(ScenarioFiles) == 1
  {
  }

  /**
   * The three-file scenario: "0.txt" is uploaded, "7.txt" is forbidden and
   * "9.txt" is not found, in whichever order the pool finishes them.
   */
  lemma MockScenario(results: seq<Outcome>)
    requires IsPoolOutput(results, MockFileSender, ScenarioFiles)
    ensures RecordAll(Tally(map[], 0, 0, []), results).done == 1
    ensures RecordAll(Tally(map[], 0, 0, []), results).errors == map["7.txt" := 403, "9.txt" := 404]
    ensures |RecordAll(Tally(map[], 0, 0, []), results).events| == 3
  {
    var t := Tally(map[], 0, 0, []);
    FullRun(t, MockFileSender, ScenarioFiles, results);
    MockSuccesses(ScenarioFiles);
    ScenarioOutcomes();
    var r := RecordAll(t, results);
    var expected := map["7.txt" := 403, "9.txt" := 404];
    forall f ensures Lookup(r.errors, f) == Lookup(expected, f) {
      assert f in ScenarioFiles <==> f == "0.txt" || f == "7.txt" || f == "9.txt";
    }
    LookupExtensional(r.errors, expected);
  }
}
