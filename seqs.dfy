/** Concatenation of a sequence of sequences, the operation behind every
    "collect the points of each entity into one list" loop. */
module Seqs {

  /** The lists of `groups`, joined in order. */
  function Concat<T>(groups: seq<seq<T>>): seq<T>
  {
    if |groups| == 0 then []
    else Concat(groups[..|groups| - 1]) + groups[|groups| - 1]
  }

  lemma {:induction false} ConcatAppend<T>(a: seq<seq<T>>, b: seq<seq<T>>)
    ensures Concat(a + b) == Concat(a) + Concat(b)
    decreases |b|
  {
    if |b| > 0 {
      var ab := a + b;
      assert ab[..|ab| - 1] == a + b[..|b| - 1];
      ConcatAppend(a, b[..|b| - 1]);
    } else {
      assert a + b == a;
    }
  }

  /** An element is in the concatenation exactly when it is in one of the lists. */
  lemma {:induction false} ConcatMember<T>(groups: seq<seq<T>>, x: T)
    ensures x in Concat(groups) <==> exists g :: 0 <= g < |groups| && x in groups[g]
  {
    if |groups| > 0 {
      var init := groups[..|groups| - 1];
      ConcatMember(init, x);
      if x in Concat(groups) && x !in groups[|groups| - 1] {
        var g :| 0 <= g < |init| && x in init[g];
        assert x in groups[g];
      }
      if exists g :: 0 <= g < |groups| && x in groups[g] {
        var g :| 0 <= g < |groups| && x in groups[g];
        if g < |init| {
          assert x in init[g];
        }
      }
    }
  }

  /** The lengths add up. */
  lemma {:induction false} ConcatLength<T>(groups: seq<seq<T>>, bound: nat)
    requires forall g :: 0 <= g < |groups| ==> |groups[g]| <= bound
    ensures |Concat(groups)| <= |groups| * bound
  {
    if |groups| > 0 {
      ConcatLength(groups[..|groups| - 1], bound);
    }
  }
}
