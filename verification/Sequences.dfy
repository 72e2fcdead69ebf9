/** Sequences with the same elements. */
module Sequences {
  /** If `b` is a permutation of `init` and one more element `t`, then `t` can be taken out of `b`. */
  lemma TakeOut<T>(init: seq<T>, t: T, b: seq<T>) returns (left: seq<T>, right: seq<T>)
    requires multiset(init + [t]) == multiset(b)
    ensures b == left + [t] + right && multiset(init) == multiset(left + right)
  {
    assert t in multiset(b);
    var k :| 0 <= k < |b| && b[k] == t;
    left, right := b[..k], b[k + 1..];
    assert b == left + [t] + right;
    MoveToEnd(left, t, right);
    Cancel(multiset(init), multiset(left + right), t);
  }

  lemma Cancel<T>(a: multiset<T>, b: multiset<T>, t: T)
    requires a + multiset{t} == b + multiset{t}
    ensures a == b
  {
    assert a == (a + multiset{t}) - multiset{t};
    assert b == (b + multiset{t}) - multiset{t};
  }

  lemma MoveToEnd<T>(left: seq<T>, t: T, right: seq<T>)
    ensures multiset(left + [t] + right) == multiset(left + right) + multiset{t}
  {
  }

  lemma SameLength<T>(a: seq<T>, b: seq<T>)
    requires multiset(a) == multiset(b)
    ensures |a| == |b|
  {
    assert |multiset(a)| == |multiset(b)|;
  }
}
