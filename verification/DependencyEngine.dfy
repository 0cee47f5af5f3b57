/** The dependency engine: graph construction, Kahn's algorithm, ready steps
    (orchestrator/dependency_engine.py). */
module DependencyEngine {
  import opened Sequences
  import opened Workflow
  import opened Digraph

  // ----- What the dictionaries hold -------------------------------------------------

  /** The ids of the first `n` entries in the order a Python dict keeps them: first insertion. */
  function Ids(definition: seq<WorkflowStep>, n: nat): seq<StepId>
    requires n <= |definition|
  {
    if n == 0 then []
    else
      var rest := Ids(definition, n - 1);
      if definition[n - 1].stepId in rest then rest else rest + [definition[n - 1].stepId]
  }

  /** Everything the first `n` entries with id `v` list under `depends_on`, repetitions kept. */
  function AllDeps(definition: seq<WorkflowStep>, n: nat, v: StepId): seq<StepId>
    requires n <= |definition|
  {
    if n == 0 then []
    else AllDeps(definition, n - 1, v) + if definition[n - 1].stepId == v then definition[n - 1].dependsOn else []
  }

  /** The step table after `n` entries: a later entry with the same id overwrites. */
  function Table(definition: seq<WorkflowStep>, n: nat): map<StepId, WorkflowStep>
    requires n <= |definition|
  {
    if n == 0 then map[] else Table(definition, n - 1)[definition[n - 1].stepId := definition[n - 1]]
  }

  /** What each step of a step table depends on. */
  function DepsOf(steps: map<StepId, WorkflowStep>): Deps {
    map v | v in steps :: steps[v].dependsOn
  }

  /** Some entry of the definition has this id. */
  predicate Known(definition: seq<WorkflowStep>, v: StepId) {
    exists m :: 0 <= m < |definition| && definition[m].stepId == v
  }

  /** The entry that a dict keeps for its id: no later entry has the same one. */
  predicate IsLast(definition: seq<WorkflowStep>, m: nat)
    requires m < |definition|
  {
    forall n :: m < n < |definition| ==> definition[n].stepId != definition[m].stepId
  }

  /** Without repeated ids every entry is kept. */
  lemma {:induction false} DistinctIsLast(definition: seq<WorkflowStep>, m: nat)
    requires m < |definition|
    requires forall i, j :: 0 <= i < j < |definition| ==> definition[i].stepId != definition[j].stepId
    ensures IsLast(definition, m)
  {
  }

  /** The table holds the last entry of an id as it is listed. */
  lemma {:induction false} TableHasLast(definition: seq<WorkflowStep>, m: nat, n: nat)
    requires m < n <= |definition|
    requires forall i :: m < i < n ==> definition[i].stepId != definition[m].stepId
    ensures definition[m].stepId in Table(definition, n) && Table(definition, n)[definition[m].stepId] == definition[m]
  {
    if n == m + 1 {
    } else {
      TableHasLast(definition, m, n - 1);
    }
  }

  /** Every step of the table is the last entry of its id. */
  lemma {:induction false} TableIsLast(definition: seq<WorkflowStep>, n: nat, k: StepId) returns (m: nat)
    requires n <= |definition| && k in Table(definition, n)
    ensures m < n && definition[m].stepId == k && forall i :: m < i < n ==> definition[i].stepId != k
  {
    if definition[n - 1].stepId == k {
      m := n - 1;
    } else {
      m := TableIsLast(definition, n - 1, k);
    }
  }

  lemma {:induction false} IdsOf(definition: seq<WorkflowStep>, n: nat)
    requires n <= |definition|
    ensures NoDup(Ids(definition, n))
    ensures forall v :: v in Ids(definition, n) <==> v in Table(definition, n)
  {
    if n == 0 {
    } else {
      IdsOf(definition, n - 1);
    }
  }

  lemma {:induction false} TableOf(definition: seq<WorkflowStep>, n: nat)
    requires n <= |definition|
    ensures forall m :: 0 <= m < n ==> definition[m].stepId in Table(definition, n)
    ensures forall v :: v in Table(definition, n) ==> Table(definition, n)[v].stepId == v && Known(definition, v)
  {
    if n == 0 {
    } else {
      TableOf(definition, n - 1);
    }
  }

  // ----- Ready steps ----------------------------------------------------------------

  predicate IsReady(deps: Deps, st: map<StepId, StepStatus>, k: StepId) {
    && k in deps && k in st && Unstarted(st[k])
    && forall d :: d in deps[k] ==> d in st && st[d] == COMPLETED
  }

  /** The ready steps among the first `n` ids, in that order. */
  function ReadyAmong(order: seq<StepId>, n: nat, deps: Deps, st: map<StepId, StepStatus>): seq<StepId>
    requires n <= |order|
  {
    if n == 0 then []
    else ReadyAmong(order, n - 1, deps, st) + if IsReady(deps, st, order[n - 1]) then [order[n - 1]] else []
  }

  function ReadySteps(order: seq<StepId>, deps: Deps, st: map<StepId, StepStatus>): seq<StepId> {
    ReadyAmong(order, |order|, deps, st)
  }

  lemma {:induction false} ReadyAmongExact(order: seq<StepId>, n: nat, deps: Deps, st: map<StepId, StepStatus>)
    requires n <= |order|
    ensures forall k :: k in ReadyAmong(order, n, deps, st) <==> k in order[..n] && IsReady(deps, st, k)
    ensures NoDup(order) ==> NoDup(ReadyAmong(order, n, deps, st))
  {
    if n == 0 {
    } else {
      ReadyAmongExact(order, n - 1, deps, st);
      assert order[..n] == order[..n - 1] + [order[n - 1]];
    }
  }

  /** The ready list names each ready step of the order exactly once, and nothing else. */
  lemma {:induction false} ReadyStepsExact(order: seq<StepId>, deps: Deps, st: map<StepId, StepStatus>)
    ensures forall k :: k in ReadySteps(order, deps, st) <==> k in order && IsReady(deps, st, k)
    ensures NoDup(order) ==> NoDup(ReadySteps(order, deps, st))
  {
    ReadyAmongExact(order, |order|, deps, st);
    assert order[..|order|] == order;
  }

  // ----- In-degrees -----------------------------------------------------------------

  /** Dependency edges whose source is not yet processed. */
  function Unmet(deps: seq<StepId>, done: set<StepId>): nat {
    if deps == [] then 0
    else
      var n := |deps| - 1;
      Unmet(deps[..n], done) + if deps[n] in done then 0 else 1
  }

  lemma {:induction false} UnmetFacts(deps: seq<StepId>, done: set<StepId>, node: StepId)
    ensures done == {} ==> Unmet(deps, done) == |deps|
    ensures Unmet(deps, done) == 0 <==> forall d :: d in deps ==> d in done
    ensures node !in done ==> Unmet(deps, done + {node}) == Unmet(deps, done) - Copies(deps, node)
  {
    if deps == [] {
    } else {
      var n := |deps| - 1;
      UnmetFacts(deps[..n], done, node);
      assert deps == deps[..n] + [deps[n]];
    }
  }

  // ----- The graph ------------------------------------------------------------------

  datatype Build = Built | UnknownDependency(step: StepId, dep: StepId)

  datatype Validation = Accepted | CyclicDependency(cycle: set<StepId>)

  datatype Sorted = Order(order: seq<StepId>) | NoOrder(cycle: set<StepId>)

  class DependencyGraph {
    const definition: seq<WorkflowStep>
    var ids: seq<StepId>
    var steps: map<StepId, WorkflowStep>
    var adjacency: Deps
    var reverse: Deps

    constructor (definition: seq<WorkflowStep>)
      ensures this.definition == definition
      ensures ids == [] && steps == map[] && adjacency == map[] && reverse == map[]
    {
      this.definition := definition;
      ids, steps, adjacency, reverse := [], map[], map[], map[];
    }

    /** The dictionaries have the same nodes, the two edge maps are the same multigraph. */
    ghost predicate Valid()
      reads this
    {
      && NoDup(ids)
      && steps.Keys == reverse.Keys == Elements(ids)
      && Closed(reverse)
      && SameEdges(adjacency, reverse)
    }

    /** The nodes and edges are those of the definition. */
    ghost predicate Describes()
      reads this
    {
      && ids == Ids(definition, |definition|)
      && steps == Table(definition, |definition|)
      && HasDeps(definition, |definition|, reverse)
    }

    /** What `get_ready_steps` consults: the entry a later duplicate id overwrote is gone. */
    ghost function StepDeps(): Deps
      reads this
    {
      DepsOf(steps)
    }

    /** The ready rule sees exactly what the kept entries list, and that is a subset of the
        validated edges, so validation covers it. */
    lemma {:induction false} StepDepsAreSafe()
      requires Valid() && Describes()
      ensures StepDeps().Keys == Elements(ids) && Closed(StepDeps())
      ensures forall m :: 0 <= m < |definition| && IsLast(definition, m) ==>
                && definition[m].stepId in StepDeps() && StepDeps()[definition[m].stepId] == definition[m].dependsOn
                && steps[definition[m].stepId] == definition[m]
      ensures forall k :: k in steps ==> exists m :: 0 <= m < |definition| && IsLast(definition, m) && definition[m].stepId == k
      ensures Acyclic(reverse) ==> Acyclic(StepDeps())
    {
      forall m | 0 <= m < |definition| && IsLast(definition, m)
        ensures definition[m].stepId in steps && steps[definition[m].stepId] == definition[m]
      {
        TableHasLast(definition, m, |definition|);
      }
      forall k | k in steps
        ensures exists m :: 0 <= m < |definition| && IsLast(definition, m) && definition[m].stepId == k
      {
        var m := TableIsLast(definition, |definition|, k);
        assert IsLast(definition, m);
      }
      forall v, d | v in StepDeps() && d in StepDeps()[v]
        ensures d in reverse[v]
      {
        LastEntryDeps(definition, |definition|, v, d);
      }
      if Acyclic(reverse) {
        AcyclicSubgraph(StepDeps(), reverse);
      }
    }

    /** `_build`: refuses exactly the definitions that name an unknown step. */
    method Build() returns (r: Build)
      requires ids == [] && steps == map[] && adjacency == map[] && reverse == map[]
      modifies this
      ensures r.Built? <==> AllKnown(definition, |definition|)
      ensures r.Built? ==> Valid() && Describes()
      ensures r.UnknownDependency? ==> UnknownIn(definition, r.step, r.dep)
      ensures r.Built? <==> forall m, d :: 0 <= m < |definition| && d in definition[m].dependsOn ==>
                exists n :: 0 <= n < |definition| && definition[n].stepId == d
    {
      KnownMeans(definition);
      AddNodes();
      hide *;
      LinkedNone();
      for i := 0 to |definition|
        invariant ids == Ids(definition, |definition|) && steps == Table(definition, |definition|)
        invariant Linked(i)
      {
        r := AddEntry(i);
        if r.UnknownDependency? {
          return;
        }
      }
      r := Built;
      WellBuilt();
    }

    /** The edges of the first `n` entries are in both maps. */
    ghost predicate Linked(n: nat)
      requires n <= |definition|
      reads this
    {
      && SameEdges(adjacency, reverse) && reverse.Keys == steps.Keys
      && HasDeps(definition, n, reverse) && AllKnown(definition, n)
    }

    method AddEntry(i: nat) returns (r: Build)
      requires i < |definition| && steps == Table(definition, |definition|) && Linked(i)
      modifies `adjacency, `reverse
      ensures r.Built? ==> Linked(i + 1)
      ensures r.UnknownDependency? ==> UnknownIn(definition, r.step, r.dep) && !AllKnown(definition, |definition|)
    {
      hide SameEdges, HasDeps, AllKnown, Known, UnknownIn;
      KnownNodes(definition, steps);
      ghost var before := reverse;
      r := AddEdges(definition[i]);
      if r.UnknownDependency? {
        FoundUnknown(definition, i, r.dep);
      } else {
        EdgesAdded(definition, i, before, reverse);
      }
    }

    lemma {:induction false} LinkedNone()
      requires SameEdges(adjacency, reverse) && reverse.Keys == steps.Keys && HasDeps(definition, 0, reverse)
      ensures Linked(0)
    {
    }

    lemma {:induction false} WellBuilt()
      requires ids == Ids(definition, |definition|) && steps == Table(definition, |definition|)
      requires Linked(|definition|)
      ensures Valid() && Describes()
    {
      DepsAreListed(definition, reverse);
    }

    /** The inner loop of `_build`. */
    method AddEdges(step: WorkflowStep) returns (r: Build)
      requires SameEdges(adjacency, reverse) && reverse.Keys == steps.Keys && step.stepId in steps
      modifies `adjacency, `reverse
      ensures r.Built? <==> forall d :: d in step.dependsOn ==> d in steps
      ensures r.Built? ==> SameEdges(adjacency, reverse)
      ensures r.Built? ==> reverse.Keys == steps.Keys && Extended(old(reverse), reverse, step.stepId, step.dependsOn)
      ensures r.UnknownDependency? ==> r.step == step.stepId && r.dep in step.dependsOn && r.dep !in steps
    {
      var id, deps := step.stepId, step.dependsOn;
      hide *;
      GrownNone(adjacency, reverse, id, deps);
      for j := 0 to |deps|
        invariant reverse.Keys == steps.Keys && Grown(old(reverse), adjacency, reverse, id, deps, j)
        invariant forall m :: 0 <= m < j ==> deps[m] in steps
      {
        var dep := deps[j];
        if dep !in steps {
          return UnknownDependency(id, dep);
        }
        GrownNext(old(reverse), adjacency, reverse, id, deps, j);
        adjacency := adjacency[dep := adjacency[dep] + [id]];
        reverse := reverse[id := reverse[id] + [dep]];
      }
      GrownAll(old(reverse), adjacency, reverse, id, deps);
      r := Built;
    }

    /** The first loop of `_build`: one node per id, no edges yet. */
    method AddNodes()
      requires ids == [] && steps == map[] && adjacency == map[] && reverse == map[]
      modifies this
      ensures ids == Ids(definition, |definition|) && steps == Table(definition, |definition|)
      ensures SameEdges(adjacency, reverse) && reverse.Keys == steps.Keys
      ensures HasDeps(definition, 0, reverse)
    {
      hide *;
      NodeStep(definition, 0);
      for i := 0 to |definition|
        invariant ids == Ids(definition, i) && steps == Table(definition, i)
        invariant steps.Keys == adjacency.Keys == reverse.Keys
        invariant forall v :: v in reverse ==> reverse[v] == [] && adjacency[v] == []
      {
        var step := definition[i];
        NodeStep(definition, i + 1);
        ids := if step.stepId in steps then ids else ids + [step.stepId];
        steps := steps[step.stepId := step];
        if step.stepId !in adjacency {
          adjacency := adjacency[step.stepId := []];
          reverse := reverse[step.stepId := []];
        }
      }
      NoEdges(definition, adjacency, reverse);
    }

    /** The loop `validate` and `topological_sort` share. What it leaves out is stuck. */
    method KahnOrder() returns (visited: seq<StepId>)
      requires Valid()
      ensures NoDup(visited) && Layered(reverse, visited)
      ensures Stuck(reverse, reverse.Keys - Elements(visited))
    {
      var rev, adj := reverse, adjacency;
      assert SameEdges(adj, rev) && Closed(rev) && adj.Keys == rev.Keys;
      var inDegree, queue := InitialDegrees(ids, rev);
      hide *;
      visited := [];
      KahnStart(rev, inDegree, queue);
      while queue != []
        invariant Counting(rev, inDegree, Elements(visited), [])
        invariant Frontier(rev, inDegree, visited + queue)
        invariant Layered(rev, visited)
        decreases |rev.Keys| - |visited|
      {
        var node := queue[0];
        KahnPop(rev, inDegree, visited, queue);
        KahnEdges(adj, rev, node);
        inDegree, queue := Release(rev, inDegree, node, adj[node], visited, queue[1..]);
        visited := visited + [node];
      }
      KahnEnd(rev, inDegree, visited);
    }

    /** Edges and ids in the terms of the definition. */
    lemma {:induction false} EdgesAreListed()
      requires Valid() && Describes()
      ensures forall v, d :: v in reverse && d in reverse[v] <==>
                exists m :: 0 <= m < |definition| && definition[m].stepId == v && d in definition[m].dependsOn
      ensures forall k :: k in ids <==> exists m :: 0 <= m < |definition| && definition[m].stepId == k
      ensures forall m :: 0 <= m < |definition| ==> definition[m].stepId in reverse
      ensures forall i, j :: 0 <= i < j < |ids| ==> ids[i] != ids[j]
    {
      hide SameEdges, Closed;
      assert forall k :: k in ids <==> k in Elements(ids);
      KnownNodes(definition, steps);
      assert forall k :: k in ids <==> Known(definition, k);
      forall v, d
        ensures v in reverse && d in reverse[v] <==>
                exists m :: 0 <= m < |definition| && definition[m].stepId == v && d in definition[m].dependsOn
      {
        AllDepsAre(definition, |definition|, v, d);
        assert v in reverse ==> reverse[v] == AllDeps(definition, |definition|, v);
      }
    }

    /** The refused steps in the terms of the definition: those that end a walk from dependency to
        dependent along which the first step comes again. */
    lemma {:induction false} CyclesAreListed(v: StepId)
      requires Valid() && Describes()
      ensures v in BehindCycle(reverse) <==>
              exists w: seq<StepId>, n: nat :: 0 < n < |w| && w[n] == w[0] && w[|w| - 1] == v && Listed(w)
    {
      EdgesAreListed();
      hide Describes, Valid, BehindCycle, IsPath, Listed, AfterCycle;
      if v in BehindCycle(reverse) {
        assert AfterCycle(reverse, v) by { BehindMeans(reverse, v); }
        var w, n := WalkOf(reverse, v);
        ListedPath(w);
      }
      if w: seq<StepId>, n: nat :| 0 < n < |w| && w[n] == w[0] && w[|w| - 1] == v && Listed(w) {
        ListedPath(w);
        CycleOnPath(reverse, w, 0, n);
        BehindMeans(reverse, v);
      }
    }

    /** Some entry of `v` lists `d`. */
    ghost predicate Lists(v: StepId, d: StepId) {
      exists m :: 0 <= m < |definition| && definition[m].stepId == v && d in definition[m].dependsOn
    }

    /** Each step of the walk is listed as a dependency by an entry of the next one. */
    ghost predicate Listed(w: seq<StepId>) {
      forall i, j :: 0 <= i < j < |w| && j == i + 1 ==> Lists(w[j], w[i])
    }

    lemma {:induction false} ListedPath(w: seq<StepId>)
      requires Valid() && Describes()
      ensures |w| > 1 && w[0] in w[1..] ==> (Listed(w) <==> IsPath(reverse, w))
    {
      EdgesAreListed();
      assert forall v, d :: Edge(reverse, v, d) <==> Lists(v, d);
      hide Valid, Describes, Lists, Edge;
      if |w| > 1 && w[0] in w[1..] {
        PathByEdges(reverse, w);
      }
      hide IsPath;
    }

    lemma {:induction false} OrderIsListed(order: seq<StepId>)
      requires Valid() && NoDup(order) && Elements(order) == Elements(ids) && Layered(reverse, order)
      ensures Describes() ==>
                && (forall m :: 0 <= m < |definition| ==> definition[m].stepId in order)
                && (forall k :: k in order ==> exists m :: 0 <= m < |definition| && definition[m].stepId == k)
                && (forall i, j :: 0 <= i < j < |order| ==> order[i] != order[j])
                && forall m, j :: 0 <= m < |definition| && 0 <= j < |order| && definition[m].stepId == order[j] ==>
                     forall d :: d in definition[m].dependsOn ==> d in order[..j]
    {
      if Describes() {
        EdgesAreListed();
        assert forall k :: k in order <==> k in Elements(order);
        assert forall k :: k in ids <==> k in Elements(ids);
        hide Describes, Valid;
        forall m, j, d | 0 <= m < |definition| && 0 <= j < |order| && definition[m].stepId == order[j]
                         && d in definition[m].dependsOn
          ensures d in order[..j]
        {
          assert d in reverse[order[j]];
        }
      }
    }

    /** Kahn is exact: acceptance means no directed cycle, and a refusal names precisely
        the steps on a cycle or behind one. */
    method Validate() returns (r: Validation)
      requires Valid()
      ensures r.Accepted? <==> Acyclic(reverse)
      ensures r.CyclicDependency? ==> r.cycle == BehindCycle(reverse)
      ensures r.CyclicDependency? && Describes() ==> r.cycle != {} && EachWaits(definition, r.cycle)
    {
      hide *;
      var visited := KahnOrder();
      CutMeans(visited);
      if |visited| != |steps| {
        return CyclicDependency(steps.Keys - set v | v in visited);
      }
      return Accepted;
    }

    lemma {:induction false} CutMeans(visited: seq<StepId>)
      requires Valid() && NoDup(visited) && Layered(reverse, visited)
      requires Stuck(reverse, reverse.Keys - Elements(visited))
      ensures Acyclic(reverse) <==> |visited| == |steps|
      ensures Acyclic(reverse) ==> Elements(visited) == Elements(ids)
      ensures steps.Keys - (set v | v in visited) == BehindCycle(reverse)
      ensures Describes() && |visited| != |steps| ==> BehindCycle(reverse) != {} && EachWaits(definition, BehindCycle(reverse))
    {
      assert steps.Keys == reverse.Keys == Elements(ids);
      if Describes() {
        EdgesAreListed();
        hide *;
        StuckIsListed(definition, reverse, reverse.Keys - Elements(visited));
      }
      assert (set v | v in visited) == Elements(visited);
      hide *;
      CutCount(reverse, visited);
      assert |steps.Keys| == |steps|;
    }

    /** A permutation of the ids with dependencies first, or the same refusal. */
    method TopologicalSort() returns (r: Sorted)
      requires Valid()
      ensures r.Order? <==> Acyclic(reverse)
      ensures r.Order? ==> NoDup(r.order) && Elements(r.order) == Elements(ids) && Layered(reverse, r.order)
      ensures r.NoOrder? ==> r.cycle == BehindCycle(reverse)
      ensures r.Order? && Describes() ==>
                && (forall m :: 0 <= m < |definition| ==> definition[m].stepId in r.order)
                && (forall k :: k in r.order ==> exists m :: 0 <= m < |definition| && definition[m].stepId == k)
                && (forall i, j :: 0 <= i < j < |r.order| ==> r.order[i] != r.order[j])
                && forall m, j :: 0 <= m < |definition| && 0 <= j < |r.order| && definition[m].stepId == r.order[j] ==>
                     forall d :: d in definition[m].dependsOn ==> d in r.order[..j]
    {
      hide *;
      var v := Validate();
      if v.CyclicDependency? {
        return NoOrder(v.cycle);
      }
      var order := KahnOrder();
      CutMeans(order);
      OrderIsListed(order);
      return Order(order);
    }

    /** `get_ready_steps`: of every entry that is kept, its step is listed iff it has a status, has
        not started, and every step the entry lists is completed. */
    method GetReadySteps(st: map<StepId, StepStatus>) returns (ready: seq<StepId>)
      requires Valid()
      ensures ready == ReadySteps(ids, StepDeps(), st)
      ensures NoDup(ready) && forall k :: k in ready ==> k in steps
      ensures Describes() ==>
                forall m :: 0 <= m < |definition| && IsLast(definition, m) ==>
                  (definition[m].stepId in ready <==>
                     && definition[m].stepId in st
                     && (st[definition[m].stepId] == PENDING || st[definition[m].stepId] == WAITING
                         || st[definition[m].stepId] == READY)
                     && forall d :: d in definition[m].dependsOn ==> d in st && st[d] == COMPLETED)
    {
      ghost var deps := StepDeps();
      var order := ids;
      assert forall k :: k in order ==> k in steps;
      hide Valid;
      ready := [];
      for i := 0 to |order|
        invariant ready == ReadyAmong(order, i, deps, st)
      {
        var k := order[i];
        if k in st && Unstarted(st[k]) {
          if forall d | d in steps[k].dependsOn :: d in st && st[d] == COMPLETED {
            ready := ready + [k];
          }
        }
      }
      ReadyEntries(st);
    }

    lemma {:induction false} ReadyEntries(st: map<StepId, StepStatus>)
      requires Valid()
      ensures var ready := ReadySteps(ids, StepDeps(), st);
              && NoDup(ready) && (forall k :: k in ready ==> k in steps)
              && (Describes() ==>
                    forall m :: 0 <= m < |definition| && IsLast(definition, m) ==>
                      (definition[m].stepId in ready <==>
                         && definition[m].stepId in st
                         && (st[definition[m].stepId] == PENDING || st[definition[m].stepId] == WAITING
                             || st[definition[m].stepId] == READY)
                         && forall d :: d in definition[m].dependsOn ==> d in st && st[d] == COMPLETED))
    {
      ReadyStepsExact(ids, StepDeps(), st);
      hide ReadySteps;
      if Describes() {
        StepDepsAreSafe();
        hide Describes;
        assert forall k :: k in ids <==> k in steps;
      }
    }
  }

  // ----- The loops of Kahn's algorithm ----------------------------------------------

  method InitialDegrees(order: seq<StepId>, rev: Deps) returns (inDegree: map<StepId, int>, queue: seq<StepId>)
    requires NoDup(order) && Elements(order) == rev.Keys
    ensures inDegree.Keys == rev.Keys && NoDup(queue) && Elements(queue) <= rev.Keys
    ensures forall v :: v in rev ==> inDegree[v] == |rev[v]| && (v in queue <==> inDegree[v] == 0)
  {
    inDegree, queue := map[], [];
    assert forall v :: v in order <==> v in rev;
    for i := 0 to |order|
      invariant forall v :: v in inDegree <==> v in order[..i]
      invariant forall v :: v in inDegree ==> v in rev && inDegree[v] == |rev[v]|
      invariant NoDup(queue) && forall v :: v in queue <==> v in inDegree && inDegree[v] == 0
    {
      assert order[i] !in order[..i] && order[..i + 1] == order[..i] + [order[i]];
      inDegree := inDegree[order[i] := |rev[order[i]]|];
      if |rev[order[i]]| == 0 {
        queue := queue + [order[i]];
      }
    }
    assert order[..|order|] == order;
  }

  /** The inner loop: every edge out of the popped node is taken once. */
  method Release(rev: Deps, inDegree: map<StepId, int>, node: StepId, dependents: seq<StepId>,
                 ghost visited: seq<StepId>, queue: seq<StepId>)
    returns (degree: map<StepId, int>, waiting: seq<StepId>)
    requires node !in visited && forall d :: d in dependents ==> d in rev
    requires forall v :: v in rev ==> Copies(dependents, v) == Copies(rev[v], node)
    requires Counting(rev, inDegree, Elements(visited), []) && Frontier(rev, inDegree, (visited + [node]) + queue)
    ensures Counting(rev, degree, Elements(visited + [node]), [])
    ensures Frontier(rev, degree, (visited + [node]) + waiting)
  {
    degree, waiting := inDegree, queue;
    assert dependents[..0] == [];
    ghost var done := Elements(visited);
    assert node !in done;
    hide Counting, Frontier;
    for k := 0 to |dependents|
      invariant Counting(rev, degree, done, dependents[..k])
      invariant Frontier(rev, degree, (visited + [node]) + waiting)
    {
      KahnEdge(rev, degree, done, node, dependents, k, visited + [node], waiting);
      degree := degree[dependents[k] := degree[dependents[k]] - 1];
      if degree[dependents[k]] == 0 {
        waiting := waiting + [dependents[k]];
      }
    }
    KahnNodeDone(rev, degree, visited, node, dependents);
  }

  // ----- Lemmas behind the loops ----------------------------------------------------

  /** How often `x` is listed in `s`. */
  function Copies(s: seq<StepId>, x: StepId): nat {
    multiset(s)[x]
  }

  /** `adjacency` and `reverse` hold the same edges, each the same number of times. */
  ghost predicate SameEdges(adjacency: Deps, reverse: Deps) {
    && adjacency.Keys == reverse.Keys
    && Closed(adjacency)
    && forall u, v {:trigger Copies(adjacency[u], v)} {:trigger Copies(reverse[v], u)} ::
         u in adjacency && v in reverse ==> Copies(adjacency[u], v) == Copies(reverse[v], u)
  }

  lemma {:induction false} AddEdge(adjacency: Deps, reverse: Deps, dep: StepId, step: StepId)
    requires SameEdges(adjacency, reverse) && dep in adjacency && step in adjacency
    ensures SameEdges(adjacency[dep := adjacency[dep] + [step]], reverse[step := reverse[step] + [dep]])
  {
    var a, r := adjacency[dep := adjacency[dep] + [step]], reverse[step := reverse[step] + [dep]];
    forall u, v | u in a && v in r
      ensures Copies(a[u], v) == Copies(r[v], u)
    {
      assert Copies(adjacency[u], v) == Copies(reverse[v], u);
    }
  }

  /** The two edge maps after the first `j` dependencies of a step were added. */
  ghost predicate Grown(before: Deps, adjacency: Deps, reverse: Deps, id: StepId, deps: seq<StepId>, j: nat)
    requires j <= |deps|
  {
    SameEdges(adjacency, reverse) && adjacency.Keys == reverse.Keys && Extended(before, reverse, id, deps[..j])
  }

  lemma {:induction false} GrownNone(adjacency: Deps, reverse: Deps, id: StepId, deps: seq<StepId>)
    requires SameEdges(adjacency, reverse)
    ensures Grown(reverse, adjacency, reverse, id, deps, 0)
  {
    assert Extended(reverse, reverse, id, deps[..0]);
  }

  lemma {:induction false} GrownNext(before: Deps, adjacency: Deps, reverse: Deps, id: StepId, deps: seq<StepId>,
            j: nat)
    requires j < |deps| && Grown(before, adjacency, reverse, id, deps, j) && deps[j] in reverse && id in reverse
    ensures deps[j] in adjacency
    ensures Grown(before, adjacency[deps[j] := adjacency[deps[j]] + [id]], reverse[id := reverse[id] + [deps[j]]],
                  id, deps, j + 1)
  {
    hide SameEdges, Extended;
    AddEdge(adjacency, reverse, deps[j], id);
    ExtendedMore(before, reverse, id, deps, j);
  }

  lemma {:induction false} GrownAll(before: Deps, adjacency: Deps, reverse: Deps, id: StepId, deps: seq<StepId>)
    requires Grown(before, adjacency, reverse, id, deps, |deps|)
    ensures SameEdges(adjacency, reverse) && Extended(before, reverse, id, deps)
  {
    assert deps[..|deps|] == deps;
    hide SameEdges, Extended;
  }

  /** The first `n` entries depend on known steps only. */
  ghost predicate AllKnown(definition: seq<WorkflowStep>, n: nat)
    requires n <= |definition|
  {
    forall m, d :: 0 <= m < n && d in definition[m].dependsOn ==> Known(definition, d)
  }

  ghost predicate UnknownIn(definition: seq<WorkflowStep>, step: StepId, dep: StepId) {
    && !Known(definition, dep)
    && exists m :: 0 <= m < |definition| && definition[m].stepId == step && dep in definition[m].dependsOn
  }

  /** One entry of `reverse` has grown by `deps`. */
  ghost predicate Extended(before: Deps, after: Deps, id: StepId, deps: seq<StepId>) {
    && after.Keys == before.Keys
    && forall v :: v in after ==> after[v] == before[v] + if id == v then deps else []
  }

  lemma {:induction false} ExtendedMore(before: Deps, after: Deps, id: StepId, deps: seq<StepId>, j: nat)
    requires j < |deps| && id in after && Extended(before, after, id, deps[..j])
    ensures Extended(before, after[id := after[id] + [deps[j]]], id, deps[..j + 1])
  {
    assert deps[..j + 1] == deps[..j] + [deps[j]];
  }

  ghost predicate HasDeps(definition: seq<WorkflowStep>, n: nat, reverse: Deps)
    requires n <= |definition|
  {
    forall v :: v in reverse ==> reverse[v] == AllDeps(definition, n, v)
  }

  lemma {:induction false} KnownNodes(definition: seq<WorkflowStep>, steps: map<StepId, WorkflowStep>)
    requires steps == Table(definition, |definition|)
    ensures forall v :: v in steps <==> Known(definition, v)
    ensures forall m :: 0 <= m < |definition| ==> definition[m].stepId in steps
  {
    TableOf(definition, |definition|);
  }

  lemma {:induction false} NodeStep(definition: seq<WorkflowStep>, n: nat)
    requires n <= |definition|
    ensures n == 0 ==> Ids(definition, n) == [] && Table(definition, n) == map[]
    ensures n > 0 ==>
              var step, rest := definition[n - 1], Ids(definition, n - 1);
              && Ids(definition, n) == (if step.stepId in Table(definition, n - 1) then rest else rest + [step.stepId])
              && Table(definition, n) == Table(definition, n - 1)[step.stepId := step]
  {
    if n > 0 {
      IdsOf(definition, n - 1);
    }
  }

  lemma {:induction false} NoEdges(definition: seq<WorkflowStep>, adjacency: Deps, reverse: Deps)
    requires adjacency.Keys == reverse.Keys
    requires forall v :: v in reverse ==> reverse[v] == [] && adjacency[v] == []
    ensures SameEdges(adjacency, reverse) && HasDeps(definition, 0, reverse)
  {
  }

  lemma {:induction false} FoundUnknown(definition: seq<WorkflowStep>, i: nat, dep: StepId)
    requires i < |definition| && dep in definition[i].dependsOn && !Known(definition, dep)
    ensures UnknownIn(definition, definition[i].stepId, dep) && !AllKnown(definition, |definition|)
  {
  }

  lemma {:induction false} EdgesAdded(definition: seq<WorkflowStep>, i: nat, before: Deps, after: Deps)
    requires i < |definition| && HasDeps(definition, i, before) && AllKnown(definition, i)
    requires Extended(before, after, definition[i].stepId, definition[i].dependsOn)
    requires forall d :: d in definition[i].dependsOn ==> Known(definition, d)
    ensures HasDeps(definition, i + 1, after) && AllKnown(definition, i + 1)
  {
  }

  ghost predicate Edge(deps: Deps, v: StepId, d: StepId) {
    v in deps && d in deps[v]
  }

  lemma {:induction false} PathByEdges(deps: Deps, w: seq<StepId>)
    requires |w| > 1 && w[0] in w[1..]
    ensures IsPath(deps, w) <==> forall i, j :: 0 <= i < j < |w| && j == i + 1 ==> Edge(deps, w[j], w[i])
  {
    var n :| 0 <= n < |w[1..]| && w[1..][n] == w[0];
    assert w[n + 1] == w[0];
    if forall i, j :: 0 <= i < j < |w| && j == i + 1 ==> Edge(deps, w[j], w[i]) {
      forall j | 0 < j < |w|
        ensures w[j] in deps
      {
        var i := j - 1;
        assert Edge(deps, w[j], w[i]);
      }
      assert w[0] in deps;
      assert forall i, j :: 0 <= i < j < |w| && j == i + 1 ==> Edge(deps, w[j], w[i]) && w[j] in deps;
    }
  }

  lemma {:induction false} KnownMeans(definition: seq<WorkflowStep>)
    ensures AllKnown(definition, |definition|) <==>
            forall m, d :: 0 <= m < |definition| && d in definition[m].dependsOn ==>
              exists n :: 0 <= n < |definition| && definition[n].stepId == d
  {
    if AllKnown(definition, |definition|) {
      forall m, d | 0 <= m < |definition| && d in definition[m].dependsOn
        ensures exists n :: 0 <= n < |definition| && definition[n].stepId == d
      {
        assert Known(definition, d);
      }
    }
  }

  lemma {:induction false} AllDepsAre(definition: seq<WorkflowStep>, n: nat, v: StepId, d: StepId)
    requires n <= |definition|
    ensures d in AllDeps(definition, n, v) <==>
            exists m :: 0 <= m < n && definition[m].stepId == v && d in definition[m].dependsOn
  {
    if n > 0 {
      AllDepsAre(definition, n - 1, v, d);
    }
  }

  lemma {:induction false} LastEntryDeps(definition: seq<WorkflowStep>, n: nat, v: StepId, d: StepId)
    requires n <= |definition| && v in Table(definition, n) && d in Table(definition, n)[v].dependsOn
    ensures d in AllDeps(definition, n, v)
  {
    if definition[n - 1].stepId == v {
    } else {
      LastEntryDeps(definition, n - 1, v, d);
    }
  }

  lemma {:induction false} DepIsListed(definition: seq<WorkflowStep>, n: nat, v: StepId, d: StepId)
    requires n <= |definition| && d in AllDeps(definition, n, v)
    ensures exists m :: 0 <= m < n && d in definition[m].dependsOn
  {
    if d in definition[n - 1].dependsOn {
    } else {
      DepIsListed(definition, n - 1, v, d);
    }
  }

  lemma {:induction false} DepsAreListed(definition: seq<WorkflowStep>, reverse: Deps)
    requires HasDeps(definition, |definition|, reverse) && AllKnown(definition, |definition|)
    requires reverse.Keys == Table(definition, |definition|).Keys
    ensures Closed(reverse)
    ensures NoDup(Ids(definition, |definition|)) && reverse.Keys == Elements(Ids(definition, |definition|))
  {
    IdsOf(definition, |definition|);
    KnownNodes(definition, Table(definition, |definition|));
    forall v, d | v in reverse && d in reverse[v]
      ensures d in reverse
    {
      DepIsListed(definition, |definition|, v, d);
    }
  }

  // Kahn's loop: in-degrees count unmet edges, and a node has been queued iff its count is zero.

  ghost predicate Counting(rev: Deps, inDegree: map<StepId, int>, done: set<StepId>, taken: seq<StepId>) {
    && inDegree.Keys == rev.Keys
    && forall v :: v in rev ==> inDegree[v] == Unmet(rev[v], done) - Copies(taken, v)
  }

  ghost predicate Frontier(rev: Deps, inDegree: map<StepId, int>, seen: seq<StepId>) {
    && inDegree.Keys == rev.Keys
    && NoDup(seen) && Elements(seen) <= rev.Keys
    && forall v :: v in rev ==> (v in seen <==> inDegree[v] == 0)
  }

  lemma {:induction false} KahnStart(rev: Deps, inDegree: map<StepId, int>, queue: seq<StepId>)
    requires inDegree.Keys == rev.Keys && NoDup(queue) && Elements(queue) <= rev.Keys
    requires forall v :: v in rev ==> inDegree[v] == |rev[v]| && (v in queue <==> inDegree[v] == 0)
    ensures Counting(rev, inDegree, Elements([]), []) && Frontier(rev, inDegree, [] + queue)
    ensures Layered(rev, [])
  {
    assert [] + queue == queue;
    forall v | v in rev
      ensures inDegree[v] == Unmet(rev[v], Elements([]))
    {
      UnmetFacts(rev[v], Elements([]), v);
    }
  }

  /** The popped node has all its dependencies behind it. */
  lemma {:induction false} KahnPop(rev: Deps, inDegree: map<StepId, int>, visited: seq<StepId>, queue: seq<StepId>)
    requires Counting(rev, inDegree, Elements(visited), []) && Frontier(rev, inDegree, visited + queue)
    requires Layered(rev, visited) && queue != []
    ensures Frontier(rev, inDegree, (visited + [queue[0]]) + queue[1..])
    ensures Layered(rev, visited + [queue[0]])
    ensures queue[0] in rev && queue[0] !in visited && |visited| < |rev.Keys|
  {
    var node, seen := queue[0], visited + queue;
    assert (visited + [node]) + queue[1..] == seen;
    assert seen[|visited|] == node && node in seen;
    assert forall i :: 0 <= i < |visited| ==> seen[i] == visited[i];
    NoDupBound(seen, rev.Keys);
    UnmetFacts(rev[node], Elements(visited), node);
    hide Counting, Frontier, Unmet;
    LayeredNext(rev, visited, node);
  }

  lemma {:induction false} LayeredNext(rev: Deps, visited: seq<StepId>, node: StepId)
    requires Layered(rev, visited) && node in rev && forall d :: d in rev[node] ==> d in visited
    ensures Layered(rev, visited + [node])
  {
    assert (visited + [node])[..|visited|] == visited;
    assert forall i :: 0 <= i < |visited| ==> (visited + [node])[..i] == visited[..i];
  }

  lemma {:induction false} KahnEdges(adj: Deps, rev: Deps, node: StepId)
    requires SameEdges(adj, rev) && node in rev
    ensures forall d :: d in adj[node] ==> d in rev
    ensures forall v :: v in rev ==> Copies(adj[node], v) == Copies(rev[v], node)
  {
  }

  /** One decrement: the edge was unmet, so the count stays non-negative, and a node enters
      the queue exactly when its last unmet edge is taken. */
  lemma {:induction false} KahnEdge(rev: Deps, inDegree: map<StepId, int>, done: set<StepId>, node: StepId,
                 dependents: seq<StepId>, k: nat, visited: seq<StepId>, queue: seq<StepId>)
    requires k < |dependents| && node !in done && dependents[k] in rev
    requires Copies(dependents, dependents[k]) == Copies(rev[dependents[k]], node)
    requires Counting(rev, inDegree, done, dependents[..k]) && Frontier(rev, inDegree, visited + queue)
    ensures dependents[k] in inDegree
    ensures var after := inDegree[dependents[k] := inDegree[dependents[k]] - 1];
            && Counting(rev, after, done, dependents[..k + 1])
            && Frontier(rev, after, visited + if after[dependents[k]] == 0 then queue + [dependents[k]] else queue)
  {
    hide Frontier;
    var v := dependents[k];
    UnmetFacts(rev[v], done, node);
    assert dependents[..k + 1] == dependents[..k] + [v];
    assert dependents == dependents[..k + 1] + dependents[k + 1..];
    KahnQueue(rev, inDegree, v, visited, queue);
  }

  lemma {:induction false} CutCount(deps: Deps, visited: seq<StepId>)
    requires NoDup(visited) && Layered(deps, visited) && Stuck(deps, deps.Keys - Elements(visited))
    ensures deps.Keys - Elements(visited) == BehindCycle(deps)
    ensures Acyclic(deps) <==> |visited| == |deps.Keys|
    ensures Acyclic(deps) ==> Elements(visited) == deps.Keys
    ensures |visited| != |deps.Keys| ==> BehindCycle(deps) != {}
  {
    hide *;
    CutIsExact(deps, visited);
    NoDupBound(visited, deps.Keys);
    ElementsCount(visited);
    Difference(deps.Keys, Elements(visited));
  }

  /** Of each of these steps an entry lists another of them. */
  ghost predicate EachWaits(definition: seq<WorkflowStep>, stuck: set<StepId>) {
    forall v :: v in stuck ==>
      exists m, d :: 0 <= m < |definition| && definition[m].stepId == v && d in definition[m].dependsOn && d in stuck
  }

  lemma {:induction false} StuckIsListed(definition: seq<WorkflowStep>, deps: Deps, stuck: set<StepId>)
    requires Stuck(deps, stuck)
    requires forall v, d :: v in deps && d in deps[v] ==>
               exists m :: 0 <= m < |definition| && definition[m].stepId == v && d in definition[m].dependsOn
    ensures EachWaits(definition, stuck)
  {
    forall v | v in stuck
      ensures exists m, d :: 0 <= m < |definition| && definition[m].stepId == v
                             && d in definition[m].dependsOn && d in stuck
    {
      assert WaitsInside(deps, stuck, v);
      var d :| d in deps[v] && d in stuck;
      var m :| 0 <= m < |definition| && definition[m].stepId == v && d in definition[m].dependsOn;
    }
  }


  /** A node enters the queue when its count drops to zero. */
  lemma {:induction false} KahnQueue(rev: Deps, inDegree: map<StepId, int>, v: StepId, visited: seq<StepId>,
            queue: seq<StepId>)
    requires v in rev && v in inDegree && inDegree[v] > 0 && Frontier(rev, inDegree, visited + queue)
    ensures var after := inDegree[v := inDegree[v] - 1];
            Frontier(rev, after, visited + if after[v] == 0 then queue + [v] else queue)
  {
    assert visited + (queue + [v]) == (visited + queue) + [v];
  }

  lemma {:induction false} KahnNodeDone(rev: Deps, inDegree: map<StepId, int>, visited: seq<StepId>, node: StepId,
                     dependents: seq<StepId>)
    requires node !in visited && Counting(rev, inDegree, Elements(visited), dependents[..|dependents|])
    requires forall v :: v in rev ==> Copies(dependents, v) == Copies(rev[v], node)
    ensures Counting(rev, inDegree, Elements(visited + [node]), [])
  {
    assert dependents[..|dependents|] == dependents;
    assert Elements(visited + [node]) == Elements(visited) + {node};
    forall v | v in rev
      ensures inDegree[v] == Unmet(rev[v], Elements(visited + [node]))
    {
      UnmetFacts(rev[v], Elements(visited), node);
    }
  }

  lemma {:induction false} KahnEnd(rev: Deps, inDegree: map<StepId, int>, visited: seq<StepId>)
    requires Counting(rev, inDegree, Elements(visited), []) && Frontier(rev, inDegree, visited + [])
    requires Closed(rev)
    ensures NoDup(visited) && Stuck(rev, rev.Keys - Elements(visited))
  {
    assert visited + [] == visited;
    forall v | v in rev && v !in visited
      ensures WaitsInside(rev, rev.Keys - Elements(visited), v)
    {
      UnmetFacts(rev[v], Elements(visited), v);
      var d :| d in rev[v] && d !in visited;
    }
  }

  lemma {:induction false} CutAt(deps: Deps, visited: seq<StepId>, v: StepId)
    requires NoDup(visited) && Layered(deps, visited)
    requires Stuck(deps, deps.Keys - Elements(visited))
    requires v in deps
    ensures v !in visited <==> AfterCycle(deps, v)
  {
    if v in visited {
      LayeredAvoidsCycles(deps, visited, v);
    } else {
      StuckIsAfterCycle(deps, deps.Keys - Elements(visited), v);
    }
  }

  lemma {:induction false} CutIsExact(deps: Deps, visited: seq<StepId>)
    requires NoDup(visited) && Layered(deps, visited)
    requires Stuck(deps, deps.Keys - Elements(visited))
    ensures Elements(visited) <= deps.Keys
    ensures deps.Keys - Elements(visited) == BehindCycle(deps)
    ensures Acyclic(deps) <==> Elements(visited) == deps.Keys
  {
    assert Elements(visited) <= deps.Keys;
    forall v | v in deps
      ensures v !in visited <==> AfterCycle(deps, v)
    {
      CutAt(deps, visited, v);
    }
    hide Layered, NoDup, Stuck, AfterCycle;
    assert deps.Keys - Elements(visited) == BehindCycle(deps);
    if !Acyclic(deps) {
      var c :| IsCycle(deps, c);
      CycleOnPath(deps, c, 0, |c| - 1);
      assert c[0] !in visited && c[0] in deps;
    } else if v :| v in deps && v !in visited {
      StuckIsAfterCycle(deps, deps.Keys - Elements(visited), v);
      assert false;
    }
  }
}
