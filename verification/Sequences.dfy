/** Facts about sequences without repetitions, shared by the other modules. */
module Sequences {

  ghost predicate NoDup<T>(s: seq<T>) {
    forall i, j :: 0 <= i < j < |s| ==> s[i] != s[j]
  }

  ghost function Elements<T>(s: seq<T>): set<T> {
    set x | x in s
  }

  lemma {:induction false} ElementsCount<T>(s: seq<T>)
    requires NoDup(s)
    ensures |Elements(s)| == |s|
  {
    if s == [] {
      assert Elements(s) == {};
    } else {
      var t := s[..|s| - 1];
      ElementsCount(t);
      assert s == t + [s[|s| - 1]];
      assert Elements(s) == Elements(t) + {s[|s| - 1]};
    }
  }

  lemma {:induction false} SubsetCount<T>(a: set<T>, b: set<T>)
    requires a <= b
    ensures |a| <= |b|
    ensures |a| == |b| ==> a == b
  {
    assert b == a + (b - a);
    assert |b| == |a| + |b - a|;
  }

  /** A repetition-free sequence drawn from `s` is no longer than `s` is large. */
  lemma {:induction false} NoDupBound<T>(q: seq<T>, s: set<T>)
    requires NoDup(q) && Elements(q) <= s
    ensures |q| <= |s|
    ensures |q| == |s| ==> Elements(q) == s
  {
    ElementsCount(q);
    SubsetCount(Elements(q), s);
  }

  /** More positions than values: two positions hold the same value. */
  lemma {:induction false} Pigeonhole<T>(q: seq<T>, s: set<T>) returns (i: nat, j: nat)
    requires Elements(q) <= s && |q| > |s|
    ensures i < j < |q| && q[i] == q[j]
  {
    if NoDup(q) {
      NoDupBound(q, s);
      assert false;
    }
    i, j :| 0 <= i < j < |q| && q[i] == q[j];
  }

  lemma {:induction false} Difference<T>(a: set<T>, b: set<T>)
    requires b <= a
    ensures a - b == {} <==> |b| == |a|
  {
    SubsetCount(b, a);
    if a - b == {} {
      assert a == b + (a - b);
    }
  }

  lemma {:induction false} HasMember<T>(s: seq<T>)
    requires s != []
    ensures exists x :: x in s
  {
    assert s[0] in s;
  }
}
