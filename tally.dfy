/**
 * The aggregation that `Uploader.start` performs over the results of the pool
 * (files_sender.py:52-67), as a pure fold.  The class in `Uploading` is proved
 * to update its fields exactly as this fold does; everything the caller can
 * rely on is proved here about the fold.
 */
module Tallying {
  import opened Wrappers
  import opened Seqs
  import opened Outcomes

  /** The uploader's report fields: the error map, the success count, the processed count and the queue. */
  datatype Tally = Tally(errors: map<string, int>, done: nat, complete: nat, events: seq<Event>)

  /** Every processed result is either counted as done or recorded under its file in the error map. */
  predicate Balanced(t: Tally)
  {
    t.done + |t.errors| <= t.complete
  }

  function Lookup(m: map<string, int>, f: string): Option<int>
  {
    if f in m then Some(m[f]) else None
  }

  /** Classifies one result (files_sender.py:53-67). */
  function Record(t: Tally, o: Outcome): (r: Tally)
    ensures r.complete == t.complete + 1
    ensures r.events == t.events + [EventOf(o)]
    ensures Balanced(t) ==> Balanced(r)
  {
    if o.code != OK then
      Tally(t.errors[o.file := o.code], t.done, t.complete + 1, t.events + [Error(o.file, o.reason)])
    else
      Tally(t.errors, t.done + 1, t.complete + 1, t.events + [Done(o.file, o.reason)])
  }

  /**
   * One result: status 200 bumps `done` and leaves the error map alone; any
   * other status records the code under the result's file and leaves `done`
   * alone; either way exactly one event carrying the status name is queued
   * and the processed count grows by one.
   */
  lemma RecordOne(t: Tally, o: Outcome)
    ensures Record(t, o).complete == t.complete + 1
    ensures o.code == OK ==> Record(t, o).done == t.done + 1 && Record(t, o).errors == t.errors
                             && Record(t, o).events == t.events + [Done(o.file, o.reason)]
    ensures o.code != OK ==> Record(t, o).done == t.done && Record(t, o).errors == t.errors[o.file := o.code]
                             && Record(t, o).events == t.events + [Error(o.file, o.reason)]
  {
  }

  /** Classifies the results in order, the first one first. */
  function RecordAll(t: Tally, outs: seq<Outcome>): (r: Tally)
    ensures r.complete == t.complete + |outs|
    ensures |r.events| == |t.events| + |outs|
    ensures Balanced(t) ==> Balanced(r)
    decreases |outs|
  {
    if outs == [] then t else Record(RecordAll(t, outs[..|outs| - 1]), outs[|outs| - 1])
  }

  /** The number of successful results. */
  function Successes(outs: seq<Outcome>): (n: nat)
    ensures n <= |outs|
    decreases |outs|
  {
    if outs == [] then 0
    else Successes(outs[..|outs| - 1]) + (if Succeeded(outs[|outs| - 1]) then 1 else 0)
  }

  /** The code of the last failed result for file `f`, if there is one. */
  function LastFailure(outs: seq<Outcome>, f: string): (c: Option<int>)
    ensures c.Some? ==> c.value != OK
    decreases |outs|
  {
    if outs == [] then None
    else
      var o := outs[|outs| - 1];
      if o.file == f && o.code != OK then Some(o.code) else LastFailure(outs[..|outs| - 1], f)
  }

  /** Results of one file are all the same result: true of a deterministic worker's output. */
  predicate Consistent(outs: seq<Outcome>)
  {
    forall o1, o2 :: o1 in outs && o2 in outs && o1.file == o2.file ==> o1 == o2
  }

  /** No two results name the same file. */
  predicate DistinctFiles(outs: seq<Outcome>)
  {
    forall i, j :: 0 <= i < j < |outs| ==> outs[i].file != outs[j].file
  }

  /** The events appended are one per result, in the order the results were processed. */
  lemma {:induction false} RecordAllEvents(t: Tally, outs: seq<Outcome>)
    ensures RecordAll(t, outs).events == t.events + Map(EventOf, outs)
    decreases |outs|
  {
    if outs != [] {
      var n := |outs| - 1;
      RecordAllEvents(t, outs[..n]);
      MapAppend(EventOf, outs[..n], [outs[n]]);
      assert outs[..n] + [outs[n]] == outs;
    }
  }

  /** The done count grows by exactly the number of successful results. */
  lemma {:induction false} RecordAllDone(t: Tally, outs: seq<Outcome>)
    ensures RecordAll(t, outs).done == t.done + Successes(outs)
    decreases |outs|
  {
    if outs != [] {
      RecordAllDone(t, outs[..|outs| - 1]);
    }
  }

  /** A file's entry in the error map is its last failure code, or what it was before if it never failed. */
  lemma {:induction false} RecordAllErrors(t: Tally, outs: seq<Outcome>, f: string)
    ensures Lookup(RecordAll(t, outs).errors, f)
         == if LastFailure(outs, f).Some? then LastFailure(outs, f) else Lookup(t.errors, f)
    decreases |outs|
  {
    if outs != [] {
      RecordAllErrors(t, outs[..|outs| - 1], f);
    }
  }

  /** Classifying one more result extends the fold by one step. */
  lemma RecordAllSnoc(t: Tally, s: seq<Outcome>, o: Outcome)
    ensures RecordAll(t, s + [o]) == Record(RecordAll(t, s), o)
  {
    assert (s + [o])[..|s|] == s;
  }

  /** Running twice is running once over both result sequences: a second `start` carries the report over. */
  lemma {:induction false} RecordAllConcat(t: Tally, a: seq<Outcome>, b: seq<Outcome>)
    ensures RecordAll(RecordAll(t, a), b) == RecordAll(t, a + b)
    decreases |b|
  {
    if b == [] {
      assert a + b == a;
    } else {
      var n := |b| - 1;
      RecordAllConcat(t, a, b[..n]);
      assert b == b[..n] + [b[n]];
      assert a + b == (a + b[..n]) + [b[n]];
      RecordAllSnoc(RecordAll(t, a), b[..n], b[n]);
      RecordAllSnoc(t, a + b[..n], b[n]);
    }
  }

  /** A file has no failure exactly when every result for it succeeded. */
  lemma {:induction false} LastFailureNone(outs: seq<Outcome>, f: string)
    ensures LastFailure(outs, f).None? <==> forall o :: o in outs && o.file == f ==> o.code == OK
    decreases |outs|
  {
    if outs != [] {
      var n := |outs| - 1;
      LastFailureNone(outs[..n], f);
      assert outs == outs[..n] + [outs[n]];
    }
  }

  /** When all results for a file agree, its last failure is the failure of any of them. */
  lemma {:induction false} LastFailureOfConsistent(outs: seq<Outcome>, o: Outcome)
    requires Consistent(outs)
    requires o in outs && o.code != OK
    ensures LastFailure(outs, o.file) == Some(o.code)
    decreases |outs|
  {
    var n := |outs| - 1;
    var last := outs[n];
    if last.file != o.file {
      assert outs == outs[..n] + [last];
      assert o in outs[..n];
      LastFailureOfConsistent(outs[..n], o);
    }
  }

  /** Error maps agree when they agree on every lookup. */
  lemma LookupExtensional(m1: map<string, int>, m2: map<string, int>)
    requires forall f :: Lookup(m1, f) == Lookup(m2, f)
    ensures m1 == m2
  {
    assert m1.Keys == m2.Keys by {
      forall f ensures f in m1 <==> f in m2 {
        assert Lookup(m1, f) == Lookup(m2, f);
      }
    }
    forall f | f in m1 ensures m1[f] == m2[f] {
      assert Lookup(m1, f) == Lookup(m2, f);
    }
  }

  /** The number of successes is the multiplicity of `true` among the results' success flags. */
  lemma {:induction false} SuccessesCount(outs: seq<Outcome>)
    ensures Successes(outs) == multiset(Map(Succeeded, outs))[true]
    decreases |outs|
  {
    if outs != [] {
      var n := |outs| - 1;
      SuccessesCount(outs[..n]);
      assert outs == outs[..n] + [outs[n]];
      MapAppend(Succeeded, outs[..n], [outs[n]]);
    }
  }

  /**
   * The completion order does not matter: the pool may deliver consistent
   * results in any order and the counts, the error map and the multiset of
   * events come out the same.
   */
  lemma RecordAllPermutation(t: Tally, a: seq<Outcome>, b: seq<Outcome>)
    requires multiset(a) == multiset(b)
    requires Consistent(a)
    ensures RecordAll(t, a).complete == RecordAll(t, b).complete
    ensures RecordAll(t, a).done == RecordAll(t, b).done
    ensures RecordAll(t, a).errors == RecordAll(t, b).errors
    ensures multiset(RecordAll(t, a).events) == multiset(RecordAll(t, b).events)
  {
    assert |a| == |multiset(a)| == |b|;
    RecordAllDone(t, a);
    RecordAllDone(t, b);
    SuccessesCount(a);
    SuccessesCount(b);
    MapPermutation(Succeeded, a, b);
    assert forall o :: o in a <==> o in b by {
      forall o ensures o in a <==> o in b {
        assert o in a <==> o in multiset(a);
        assert o in b <==> o in multiset(b);
      }
    }
    assert Consistent(b);
    forall f ensures Lookup(RecordAll(t, a).errors, f) == Lookup(RecordAll(t, b).errors, f) {
      RecordAllErrors(t, a, f);
      RecordAllErrors(t, b, f);
      LastFailureNone(a, f);
      LastFailureNone(b, f);
      if o :| o in a && o.file == f && o.code != OK {
        LastFailureOfConsistent(a, o);
        LastFailureOfConsistent(b, o);
      }
    }
    LookupExtensional(RecordAll(t, a).errors, RecordAll(t, b).errors);
    RecordAllEvents(t, a);
    RecordAllEvents(t, b);
    MapPermutation(EventOf, a, b);
  }

  /** A worker's output for a file names that file. */
  predicate KeepsPaths(worker: string -> Outcome, files: seq<string>)
  {
    forall p :: p in files ==> worker(p).file == p
  }

  /** The pool's output for a full run: each file's result, in some completion order. */
  predicate IsPoolOutput(results: seq<Outcome>, worker: string -> Outcome, files: seq<string>)
  {
    multiset(results) == multiset(Map(worker, files))
  }

  /** The pool delivers one result per file. */
  lemma PoolOutputLength(results: seq<Outcome>, worker: string -> Outcome, files: seq<string>)
    requires IsPoolOutput(results, worker, files)
    ensures |results| == |files|
  {
    assert |results| == |multiset(results)| == |Map(worker, files)|;
  }

  /** Every result the pool delivers is the worker's result for the file it names. */
  lemma PoolOutputFromWorker(results: seq<Outcome>, worker: string -> Outcome, files: seq<string>)
    requires IsPoolOutput(results, worker, files)
    requires KeepsPaths(worker, files)
    ensures forall o :: o in results ==> o.file in files && o == worker(o.file)
    ensures Consistent(results)
  {
    forall o | o in results ensures o.file in files && o == worker(o.file) {
      assert o in multiset(results);
      assert o in Map(worker, files);
    }
  }

  /**
   * A run that is not terminated processes every file exactly once, whatever
   * the completion order: N files give N more completed results and N more
   * events, the done count grows by the number of files the worker uploads
   * with status 200, and each failing file is mapped to its status code.
   */
  lemma FullRun(t: Tally, worker: string -> Outcome, files: seq<string>, results: seq<Outcome>)
    requires IsPoolOutput(results, worker, files)
    requires KeepsPaths(worker, files)
    ensures RecordAll(t, results).complete == t.complete + |files|
    ensures |RecordAll(t, results).events| == |t.events| + |files|
    ensures RecordAll(t, results).done == t.done + Successes(Map(worker, files))
    ensures forall f :: Lookup(RecordAll(t, results).errors, f)
                     == if f in files && worker(f).code != OK then Some(worker(f).code) else Lookup(t.errors, f)
  {
    var ordered := Map(worker, files);
    assert |results| == |multiset(results)| == |ordered|;
    PoolOutputFromWorker(results, worker, files);
    RecordAllDone(t, results);
    RecordAllDone(t, ordered);
    PoolOutputFromWorker(ordered, worker, files);
    RecordAllPermutation(t, results, ordered);
    forall f ensures Lookup(RecordAll(t, results).errors, f)
                  == if f in files && worker(f).code != OK then Some(worker(f).code) else Lookup(t.errors, f)
    {
      RecordAllErrors(t, results, f);
      LastFailureNone(results, f);
      if f in files && worker(f).code != OK {
        var o := worker(f);
        assert o in ordered;
        assert o in multiset(results);
        LastFailureOfConsistent(results, o);
      }
    }
  }

  /** Every file of the list appears in exactly as many events of a full run as it appears in the list. */
  lemma FullRunEventsCoverFiles(t: Tally, worker: string -> Outcome, files: seq<string>, results: seq<Outcome>)
    requires IsPoolOutput(results, worker, files)
    requires KeepsPaths(worker, files)
    ensures RecordAll(t, results).events[..|t.events|] == t.events
    ensures multiset(Map(EventFile, RecordAll(t, results).events[|t.events|..])) == multiset(files)
  {
    var ordered := Map(worker, files);
    RecordAllEvents(t, results);
    var added := Map(EventOf, results);
    assert RecordAll(t, results).events[|t.events|..] == added;
    MapPermutation(EventOf, results, ordered);
    MapPermutation(EventFile, added, Map(EventOf, ordered));
    assert Map(EventFile, Map(EventOf, ordered)) == files;
  }

  /**
   * With distinct file names and no overwritten entries, every processed
   * result is counted exactly once: `done + |errors| == complete`.
   */
  lemma {:induction false} ExactBalance(t: Tally, outs: seq<Outcome>)
    requires t.done + |t.errors| == t.complete
    requires DistinctFiles(outs)
    requires forall o :: o in outs ==> o.file !in t.errors
    ensures RecordAll(t, outs).done + |RecordAll(t, outs).errors| == RecordAll(t, outs).complete
    decreases |outs|
  {
    if outs != [] {
      var n := |outs| - 1;
      var last := outs[n];
      assert forall o :: o in outs[..n] ==> o in outs;
      ExactBalance(t, outs[..n]);
      if last.code != OK {
        RecordAllErrors(t, outs[..n], last.file);
        LastFailureNone(outs[..n], last.file);
        assert forall o :: o in outs[..n] ==> o.file != last.file;
        assert last.file !in RecordAll(t, outs[..n]).errors;
      }
    }
  }

  /** A full run over distinct files from an empty report accounts for every file exactly once. */
  lemma FullRunExact(worker: string -> Outcome, files: seq<string>, results: seq<Outcome>)
    requires IsPoolOutput(results, worker, files)
    requires KeepsPaths(worker, files)
    requires Distinct(files)
    ensures var r := RecordAll(Tally(map[], 0, 0, []), results);
            r.done + |r.errors| == r.complete == |files|
  {
    var ordered := Map(worker, files);
    assert Distinct(ordered);
    PermutationKeepsDistinct(ordered, results);
    PoolOutputFromWorker(results, worker, files);
    assert |results| == |multiset(results)| == |files|;
    ExactBalance(Tally(map[], 0, 0, []), results);
  }
}
