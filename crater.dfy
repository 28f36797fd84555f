/** run (src/lib.rs:24-68): list the templates, split them into four
    chunks, run the first chunk, and fold the joined chunk results into one
    Run. The listing and the shuffle are given as `listed`, already in
    shuffled order. */
module Crater {
  import opened Wrappers
  import opened Errors
  import opened Report
  import Worker

  /** The three `split_at` calls: halve the list, then halve each half. */
  function Split<T>(ts: seq<T>): (chunks: (seq<T>, seq<T>, seq<T>, seq<T>))
    ensures chunks.0 + chunks.1 + chunks.2 + chunks.3 == ts
    ensures |chunks.0| == (|ts| / 2) / 2 && |chunks.1| == |ts| / 2 - (|ts| / 2) / 2
    ensures |chunks.2| == (|ts| - |ts| / 2) / 2 && |chunks.3| == (|ts| - |ts| / 2) - (|ts| - |ts| / 2) / 2
    ensures |chunks.0| <= |chunks.1| <= |chunks.0| + 1 && |chunks.2| <= |chunks.3| <= |chunks.2| + 1
    ensures |chunks.0| + |chunks.1| <= |chunks.2| + |chunks.3| <= |chunks.0| + |chunks.1| + 1
    ensures |chunks.0| == |ts| / 4
  {
    var half := |ts| / 2;
    var first, third := ts[..half], ts[half..];
    assert ts == first + third;
    (first[..half / 2], first[half / 2..], third[..|third| / 2], third[|third| / 2..])
  }

  /** The chunk `run` spawns: only the first of the four runs. */
  function RunChunk<T>(ts: seq<T>): (chunk: seq<T>)
    ensures chunk == ts[..|ts| / 4]
  {
    Split(ts).0
  }

  /** run. `created` is the outcome of creating the output directory and
      `joined` whether the spawned chunk task joined or ended in a join
      error, which is logged and dropped. The merged Run, which the source
      logs, is returned. */
  method Run(listed: Result<seq<Worker.Script>, Error>, created: Outcome<string>, joined: bool)
    returns (r: Result<Tally, Error>)
    requires listed.Success? ==> forall t | t in RunChunk(listed.value) :: Worker.Settles(t)
    ensures listed.Failure? ==> r == Failure(listed.error)
    ensures listed.Success? && created.Fail? ==> r == Failure(Io(created.error))
    ensures listed.Success? && created.Pass? ==>
      r == Success(if joined then Worker.ChunkOf(RunChunk(listed.value)) else Tally(0, 0, 0, []))
  {
    if listed.Failure? {
      return Failure(listed.error);
    }
    var first := RunChunk(listed.value);
    if created.Fail? {
      return Failure(Io(created.error));
    }
    var results: seq<Tally> := [];
    if joined {
      var report, _ := Worker.RunEach(first);
      Worker.ChunkCounts(first);
      results := [report];
    }
    var merged := Merge(results);
    MergedOne(results, merged);
    return Success(merged);
  }

  /** Folding at most one chunk result into an empty Run gives that result,
      or the empty Run if there is none. */
  lemma MergedOne(results: seq<Tally>, merged: Tally)
    requires |results| <= 1 && (results != [] ==> results[0].healthy == 0)
    requires merged.total == SumTotal(results) && merged.valid == SumValid(results)
    requires merged.errors == AllErrors(results) && merged.healthy == 0
    ensures merged == if results == [] then Tally(0, 0, 0, []) else results[0]
  {
    if results != [] {
      assert results == [results[0]];
      SumsOfOne(results[0]);
    }
  }

  /** What a successful run reports: a quarter of the listed templates
      counted, no more of them valid, none healthy. */
  lemma RunReport(ts: seq<Worker.Script>)
    requires forall t | t in RunChunk(ts) :: Worker.Settles(t)
    ensures Worker.ChunkOf(RunChunk(ts)).total == |ts| / 4
    ensures Worker.ChunkOf(RunChunk(ts)).valid <= |ts| / 4
    ensures Worker.ChunkOf(RunChunk(ts)).healthy == 0
  {
    Worker.ChunkCounts(RunChunk(ts));
  }
}
