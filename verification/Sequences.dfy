/**
 Order-preserving filtering, the model of `retain` on a queue, and the one
 fact about it every queue invariant needs: a relation that holds between every
 earlier and later entry still holds after filtering.
 */
module Sequences {

  /** The entries of `q` that satisfy `keep`, in their original order. */
  function Retain<T>(q: seq<T>, keep: T -> bool): seq<T>
  {
    if q == [] then []
    else (if keep(q[0]) then [q[0]] else []) + Retain(q[1..], keep)
  }

  ghost predicate Pairwise<T(!new)>(q: seq<T>, rel: (T, T) -> bool)
  {
    forall i, j :: 0 <= i < j < |q| ==> rel(q[i], q[j])
  }

  /** Exactly the satisfying entries survive. */
  lemma {:induction false} RetainMembers<T(!new)>(q: seq<T>, keep: T -> bool)
    ensures forall x :: x in Retain(q, keep) <==> x in q && keep(x)
    ensures |Retain(q, keep)| <= |q|
  {
    if q != [] {
      RetainMembers(q[1..], keep);
      assert q == [q[0]] + q[1..];
    }
  }

  lemma {:induction false} RetainPairwise<T(!new)>(q: seq<T>, keep: T -> bool, rel: (T, T) -> bool)
    requires Pairwise(q, rel)
    ensures Pairwise(Retain(q, keep), rel)
  {
    if q != [] {
      RetainPairwise(q[1..], keep, rel);
      RetainMembers(q[1..], keep);
      var rest := Retain(q[1..], keep);
      forall x | x in rest ensures rel(q[0], x) {
        var k :| 0 <= k < |q[1..]| && q[1..][k] == x;
        assert q[k + 1] == x;
      }
    }
  }

  /** Two filters that agree on every entry of the queue give the same queue. */
  lemma {:induction false} RetainAgree<T(!new)>(q: seq<T>, f: T -> bool, g: T -> bool)
    requires forall x :: x in q ==> f(x) == g(x)
    ensures Retain(q, f) == Retain(q, g)
  {
    if q != [] {
      RetainAgree(q[1..], f, g);
    }
  }
}
