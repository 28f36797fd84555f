/** struct Run of src/lib.rs — the per-chunk accumulator — and the fold in
    `run` that merges the chunks' results. */
module Report {
  import opened Errors
  import ParseInt
  import Templates

  /** The boxed errors pushed onto `Run.errors`, by origin. */
  datatype Failure =
    | ConfigInvalid(reason: string)              // serde_json::Error deserializing the config
    | PortInvalid(kind: ParseInt.IntErrorKind)   // ParseIntError of the proxy key
    | Api(error: Error)                          // crate::Error from a platform call
    | LogsUnserializable(reason: string)         // serde_json::Error serializing build logs
    | LogsUnwritable(reason: string)             // std::io::Error writing them

  /** The value of a Run once its chunk is done. */
  datatype Tally = Tally(total: nat, healthy: nat, valid: nat, errors: seq<Failure>)

  class Run {
    var total: nat
    var healthy: nat
    var valid: nat
    var errors: seq<Failure>
    /** Project::delete calls made so far (an observation, not a field of the source). */
    ghost var deletes: nat
    /** Template::deploy calls made so far: template code and services sent. */
    ghost var deploys: seq<(string, seq<Templates.NewService>)>

    /** Run::default() */
    constructor ()
      ensures total == 0 && healthy == 0 && valid == 0 && errors == []
      ensures deletes == 0 && deploys == []
    {
      total, healthy, valid, errors := 0, 0, 0, [];
      deletes, deploys := 0, [];
    }

    function Snapshot(): Tally
      reads this
    {
      Tally(total, healthy, valid, errors)
    }
  }

  // ---- the merge ----

  function SumTotal(rs: seq<Tally>): nat {
    if rs == [] then 0 else SumTotal(rs[..|rs| - 1]) + rs[|rs| - 1].total
  }

  function SumValid(rs: seq<Tally>): nat {
    if rs == [] then 0 else SumValid(rs[..|rs| - 1]) + rs[|rs| - 1].valid
  }

  /** The chunks' errors, concatenated in join order. */
  function AllErrors(rs: seq<Tally>): seq<Failure> {
    if rs == [] then [] else AllErrors(rs[..|rs| - 1]) + rs[|rs| - 1].errors
  }

  /** The fold over the joined results: counts add up, errors are
      extended, `healthy` is never touched. */
  method Merge(results: seq<Tally>) returns (merged: Tally)
    ensures merged.total == SumTotal(results)
    ensures merged.valid == SumValid(results)
    ensures merged.errors == AllErrors(results)
    ensures merged.healthy == 0
  {
    var acc := new Run();
    for i := 0 to |results|
      invariant acc.total == SumTotal(results[..i])
      invariant acc.valid == SumValid(results[..i])
      invariant acc.errors == AllErrors(results[..i])
      invariant acc.healthy == 0
    {
      assert results[..i + 1][..i] == results[..i];
      acc.total := acc.total + results[i].total;
      acc.valid := acc.valid + results[i].valid;
      acc.errors := acc.errors + results[i].errors;
    }
    assert results[..|results|] == results;
    return acc.Snapshot();
  }

  /** The sums and the concatenation split over a concatenation of results. */
  lemma {:induction false} SumsSplit(a: seq<Tally>, b: seq<Tally>)
    ensures SumTotal(a + b) == SumTotal(a) + SumTotal(b)
    ensures SumValid(a + b) == SumValid(a) + SumValid(b)
    ensures AllErrors(a + b) == AllErrors(a) + AllErrors(b)
    decreases |b|
  {
    if b == [] {
      assert a + b == a;
    } else {
      var b', y := b[..|b| - 1], b[|b| - 1];
      var ab := a + b;
      assert ab != [];
      assert ab[..|ab| - 1] == a + b';
      assert ab[|ab| - 1] == y;
      SumsSplit(a, b');
      assert SumTotal(ab) == SumTotal(a + b') + y.total;
      assert SumValid(ab) == SumValid(a + b') + y.valid;
      assert AllErrors(ab) == AllErrors(a + b') + y.errors;
    }
  }

  lemma {:induction false} SumsOfOne(x: Tally)
    ensures SumTotal([x]) == x.total && SumValid([x]) == x.valid && AllErrors([x]) == x.errors
  {
    assert [x][..0] == [];
  }

  /** Taking one result out of the sequence takes its share out of the sums. */
  lemma {:induction false} SumsWithout(rs: seq<Tally>, j: nat)
    requires j < |rs|
    ensures SumTotal(rs) == SumTotal(rs[..j] + rs[j + 1..]) + rs[j].total
    ensures SumValid(rs) == SumValid(rs[..j] + rs[j + 1..]) + rs[j].valid
    ensures multiset(AllErrors(rs)) == multiset(AllErrors(rs[..j] + rs[j + 1..])) + multiset(rs[j].errors)
  {
    var left, x, right := rs[..j], rs[j], rs[j + 1..];
    assert rs == (left + [x]) + right;
    SumsSplit(left + [x], right);
    SumsSplit(left, [x]);
    SumsSplit(left, right);
    SumsOfOne(x);
  }

  /** Removing the same element from two permutations of each other leaves permutations. */
  lemma {:induction false} RemoveMatching(rs: seq<Tally>, rs': seq<Tally>, j: nat)
    requires multiset(rs) == multiset(rs') && rs != [] && j < |rs'| && rs'[j] == rs[|rs| - 1]
    ensures multiset(rs[..|rs| - 1]) == multiset(rs'[..j] + rs'[j + 1..])
  {
    var x, init, rest := rs[|rs| - 1], rs[..|rs| - 1], rs'[..j] + rs'[j + 1..];
    assert rs == init + [x];
    assert rs' == rs'[..j] + [x] + rs'[j + 1..];
    calc {
      multiset(init) + multiset([x]);
      multiset(rs);
      multiset(rs');
      multiset(rs'[..j]) + multiset([x]) + multiset(rs'[j + 1..]);
      multiset(rest) + multiset([x]);
    }
    assert multiset(init) == (multiset(init) + multiset([x])) - multiset([x]);
    assert multiset(rest) == (multiset(rest) + multiset([x])) - multiset([x]);
  }

  /** The merged counts, and the merged errors up to order, do not depend on
      the order in which the chunks were joined. */
  lemma {:induction false} MergeOrderInsensitive(rs: seq<Tally>, rs': seq<Tally>)
    requires multiset(rs) == multiset(rs')
    ensures SumTotal(rs) == SumTotal(rs')
    ensures SumValid(rs) == SumValid(rs')
    ensures multiset(AllErrors(rs)) == multiset(AllErrors(rs'))
    decreases |rs|
  {
    if rs == [] {
      assert |rs'| == |multiset(rs')| == 0;
    } else {
      var x := rs[|rs| - 1];
      assert x in multiset(rs');
      var j :| 0 <= j < |rs'| && rs'[j] == x;
      RemoveMatching(rs, rs', j);
      MergeOrderInsensitive(rs[..|rs| - 1], rs'[..j] + rs'[j + 1..]);
      SumsWithout(rs', j);
    }
  }
}
