/** Sets of holders before and after one of them changed. */
module Counting {
  function One(b: bool): nat {
    if b then 1 else 0
  }

  ghost predicate Recounted(before: set<nat>, after: set<nat>, was: bool, is_: bool) {
    |after| == |before| - One(was) + One(is_)
  }

  lemma Replaced(before: set<nat>, after: set<nat>, x: nat)
    requires after - {x} == before - {x}
    ensures Recounted(before, after, x in before, x in after)
  {
    assert |before - {x}| == |before| - One(x in before);
    assert |after - {x}| == |after| - One(x in after);
  }

  /** There is always a number left. */
  lemma {:induction false} FreshNumber(taken: set<nat>) returns (n: nat)
    ensures n !in taken && forall x :: x in taken ==> x < n
    decreases |taken|
  {
    if taken == {} {
      n := 0;
    } else {
      var x :| x in taken;
      var rest := FreshNumber(taken - {x});
      n := if x < rest then rest else x + 1;
      assert forall y :: y in taken ==> y == x || y in taken - {x};
    }
  }
}
