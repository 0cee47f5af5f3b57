/** Paths and cycles of a dependency relation: `deps[v]` lists what `v` waits for. */
module Digraph {
  import opened Sequences
  import opened Workflow

  type Deps = map<StepId, seq<StepId>>

  ghost predicate Closed(deps: Deps) {
    forall v, d {:trigger d in deps[v]} :: v in deps && d in deps[v] ==> d in deps
  }

  /** Each node is a dependency of the next one. */
  ghost predicate IsPath(deps: Deps, p: seq<StepId>) {
    && |p| > 0
    && (forall i :: 0 <= i < |p| ==> p[i] in deps)
    && (forall i, j :: 0 <= i < j < |p| && j == i + 1 ==> p[i] in deps[p[j]])
  }

  ghost predicate IsCycle(deps: Deps, c: seq<StepId>) {
    IsPath(deps, c) && |c| > 1 && c[0] == c[|c| - 1]
  }

  ghost predicate Acyclic(deps: Deps) {
    forall c :: !IsCycle(deps, c)
  }

  /** `v` lies on a directed cycle or is reachable from one. */
  ghost predicate AfterCycle(deps: Deps, v: StepId) {
    exists c, p :: IsCycle(deps, c) && IsPath(deps, p) && p[0] == c[0] && p[|p| - 1] == v
  }

  ghost function BehindCycle(deps: Deps): set<StepId> {
    set v | v in deps && AfterCycle(deps, v)
  }

  /** Every dependency of a listed node is listed before it. */
  ghost predicate Layered(deps: Deps, q: seq<StepId>) {
    && (forall i :: 0 <= i < |q| ==> q[i] in deps)
    && (forall i, d :: 0 <= i < |q| && d in deps[q[i]] ==> d in q[..i])
  }

  /** Following a path backwards from a listed node moves to earlier positions. */
  lemma {:induction false} PathBack(deps: Deps, q: seq<StepId>, p: seq<StepId>, k: nat) returns (j: nat)
    requires Layered(deps, q) && IsPath(deps, p)
    requires k < |q| && q[k] == p[|p| - 1]
    ensures j <= k && q[j] == p[0]
    ensures |p| > 1 ==> j < k
    decreases |p|
  {
    if |p| == 1 {
      j := k;
    } else {
      var d := p[|p| - 2];
      assert d in q[..k];
      var m :| 0 <= m < k && q[..k][m] == d;
      j := PathBack(deps, q, p[..|p| - 1], m);
    }
  }

  lemma {:induction false} LayeredAvoidsCycles(deps: Deps, q: seq<StepId>, v: StepId)
    requires NoDup(q) && Layered(deps, q) && v in q
    ensures !AfterCycle(deps, v)
  {
    if AfterCycle(deps, v) {
      var c, p :| IsCycle(deps, c) && IsPath(deps, p) && p[0] == c[0] && p[|p| - 1] == v;
      var k :| 0 <= k < |q| && q[k] == v;
      var j := PathBack(deps, q, p, k);
      var i := PathBack(deps, q, c, j);
      assert false;
    }
  }

  ghost predicate WaitsInside(deps: Deps, stuck: set<StepId>, u: StepId)
    requires u in deps
  {
    exists d :: d in deps[u] && d in stuck
  }

  /** No node of the set can run before another node of the set. */
  ghost predicate Stuck(deps: Deps, stuck: set<StepId>) {
    stuck <= deps.Keys && forall u :: u in stuck ==> WaitsInside(deps, stuck, u)
  }

  /** A set in which every node has a dependency of its own: walk `n` steps backwards. */
  lemma {:induction false} Walk(deps: Deps, stuck: set<StepId>, v: StepId, n: nat) returns (p: seq<StepId>)
    requires Stuck(deps, stuck) && v in stuck
    ensures |p| == n + 1 && IsPath(deps, p) && p[n] == v
    ensures Elements(p) <= stuck
    decreases n
  {
    if n == 0 {
      p := [v];
    } else {
      assert WaitsInside(deps, stuck, v);
      var d :| d in deps[v] && d in stuck;
      var r := Walk(deps, stuck, d, n - 1);
      p := r + [v];
    }
  }

  lemma {:induction false} PathSlice(deps: Deps, p: seq<StepId>, lo: nat, hi: nat)
    requires IsPath(deps, p) && lo < hi <= |p|
    ensures IsPath(deps, p[lo..hi])
  {
  }

  lemma {:induction false} CycleOnPath(deps: Deps, p: seq<StepId>, i: nat, j: nat)
    requires IsPath(deps, p) && i < j < |p| && p[i] == p[j]
    ensures AfterCycle(deps, p[|p| - 1]) && !Acyclic(deps)
  {
    hide *;
    var c, tail := p[i..j + 1], p[i..|p|];
    PathSlice(deps, p, i, j + 1);
    PathSlice(deps, p, i, |p|);
    assert c[0] == p[i] && c[|c| - 1] == p[j] && tail[0] == p[i] && tail[|tail| - 1] == p[|p| - 1];
    CycleThenPath(deps, c, tail);
  }

  lemma {:induction false} CycleThenPath(deps: Deps, c: seq<StepId>, p: seq<StepId>)
    requires IsPath(deps, c) && |c| > 1 && c[0] == c[|c| - 1] && IsPath(deps, p) && |p| > 0 && p[0] == c[0]
    ensures AfterCycle(deps, p[|p| - 1]) && !Acyclic(deps)
  {
    hide IsPath;
    assert IsCycle(deps, c);
  }

  /** The cycle and the path from it as one walk. */
  lemma {:induction false} WalkOf(deps: Deps, v: StepId) returns (w: seq<StepId>, n: nat)
    requires AfterCycle(deps, v)
    ensures IsPath(deps, w) && 0 < n < |w| && w[n] == w[0] && w[|w| - 1] == v
  {
    var c, p :| IsCycle(deps, c) && IsPath(deps, p) && p[0] == c[0] && p[|p| - 1] == v;
    n := |c| - 1;
    w := c[..n] + p;
    assert w[n - 1] == c[n - 1] && w[n] == p[0] == c[n];
  }

  lemma {:induction false} BehindMeans(deps: Deps, v: StepId)
    ensures v in BehindCycle(deps) <==> v in deps && AfterCycle(deps, v)
  {
  }

  /** A stuck node lies on a cycle or after one: walk back until a node repeats. */
  lemma {:induction false} StuckIsAfterCycle(deps: Deps, stuck: set<StepId>, v: StepId)
    requires Stuck(deps, stuck) && v in stuck
    ensures AfterCycle(deps, v) && !Acyclic(deps)
  {
    hide *;
    var p := Walk(deps, stuck, v, |stuck|);
    var i, j := Pigeonhole(p, stuck);
    CycleOnPath(deps, p, i, j);
  }

  /** Fewer dependency edges cannot make a cycle. */
  lemma {:induction false} AcyclicSubgraph(small: Deps, big: Deps)
    requires small.Keys <= big.Keys && Acyclic(big)
    requires forall v, d :: v in small && d in small[v] ==> d in big[v]
    ensures Acyclic(small)
  {
    forall c
      ensures !IsCycle(small, c)
    {
      if IsCycle(small, c) {
        assert IsCycle(big, c);
      }
    }
  }

  /** In an acyclic relation a property every node inherits from its dependencies holds of all. */
  lemma {:induction false} EveryNode(deps: Deps, good: set<StepId>)
    requires Closed(deps) && Acyclic(deps)
    requires forall v :: v in deps && (forall d :: d in deps[v] ==> d in good) ==> v in good
    ensures deps.Keys <= good
  {
    var stuck := deps.Keys - good;
    forall u | u in stuck
      ensures WaitsInside(deps, stuck, u)
    {
      var d :| d in deps[u] && d !in good;
      assert d in stuck;
    }
    forall v | v in deps
      ensures v in good
    {
      if v in stuck {
        StuckIsAfterCycle(deps, stuck, v);
      }
    }
  }
}
