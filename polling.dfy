/** A polling loop run against a finite script of answers: the loop asks
    again until an answer ends it. The source polls on a timer with no
    bound, so a script that never ends the poll is outside the model. */
module Polling {
  /** The script holds an answer that ends the poll. */
  predicate Settles<T>(xs: seq<T>, ends: T -> bool) {
    exists i :: 0 <= i < |xs| && ends(xs[i])
  }

  /** The index of the first answer that ends the poll: the loop makes
      this many queries plus one. */
  function FirstEnd<T>(xs: seq<T>, ends: T -> bool): (i: nat)
    requires Settles(xs, ends)
    ensures i < |xs| && ends(xs[i])
    ensures forall j :: 0 <= j < i ==> !ends(xs[j])
  {
    if ends(xs[0]) then 0
    else
      assert Settles(xs[1..], ends) by {
        var k :| 0 <= k < |xs| && ends(xs[k]);
        assert k > 0 && ends(xs[1..][k - 1]);
      }
      1 + FirstEnd(xs[1..], ends)
  }
}
