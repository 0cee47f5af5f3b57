/** Which tools a design phase carries: a greedy selection under a budget
    (mcp_core/profiles.py). */
module PhasePlan {
  import opened Sequences

  datatype Tool = Tool(name: string)

  const MAX_TOOLS := 40
  const PHASE_NATIVE_RESERVE := 2
  const PHASE_MCP_BUDGET: nat := MAX_TOOLS - PHASE_NATIVE_RESERVE

  const LOW_PRIORITY_PREFIXES := ["gazebo.", "isaac_sim.", "omniverse_usd.", "cadquery."]

  /** The tool tables and the guardrail's verdict on service calls, arbitrary here. Profiles
      are indexed by the discipline that selects them. */
  datatype Tables = Tables(common: set<Tool>, deliverable: map<string, set<Tool>>,
                           profile: map<string, set<Tool>>, refused: set<Tool>)

  // ----- The drop order ---------------------------------------------------------------

  /** Lexicographic order of strings, from position `i` on. */
  predicate Less(a: string, b: string, i: nat)
    requires i <= |a| && i <= |b|
    decreases |a| - i
  {
    if i == |b| then false
    else if i == |a| then true
    else a[i] < b[i] || (a[i] == b[i] && Less(a, b, i + 1))
  }

  lemma {:induction false} LessIsStrict(a: string, b: string, i: nat)
    requires i <= |a| && i <= |b|
    ensures !(Less(a, b, i) && Less(b, a, i))
    ensures a[i..] != b[i..] ==> Less(a, b, i) || Less(b, a, i)
    decreases |a| - i
  {
    if i == |a| || i == |b| {
    } else {
      LessIsStrict(a, b, i + 1);
      assert a[i..] == [a[i]] + a[i + 1..] && b[i..] == [b[i]] + b[i + 1..];
    }
  }

  lemma {:induction false} LessIsTransitive(a: string, b: string, c: string, i: nat)
    requires i <= |a| && i <= |b| && i <= |c| && Less(a, b, i) && Less(b, c, i)
    ensures Less(a, c, i)
    decreases |a| - i
  {
    if i == |a| || i == |b| || i == |c| || a[i] != b[i] || b[i] != c[i] {
    } else {
      LessIsTransitive(a, b, c, i + 1);
    }
  }

  predicate StartsWith(s: string, prefix: string) {
    |prefix| <= |s| && s[..|prefix|] == prefix
  }

  predicate Low(t: Tool) {
    exists p :: p in LOW_PRIORITY_PREFIXES && StartsWith(t.name, p)
  }

  /** `_drop_rank` order: what comes before is kept first. */
  predicate Before(a: Tool, b: Tool) {
    if Low(a) != Low(b) then Low(b) else Less(a.name, b.name, 0)
  }

  lemma {:induction false} BeforeIsStrict(a: Tool, b: Tool)
    ensures !(Before(a, b) && Before(b, a))
    ensures a != b ==> Before(a, b) || Before(b, a)
  {
    LessIsStrict(a.name, b.name, 0);
    assert a.name[0..] == a.name && b.name[0..] == b.name;
  }

  lemma {:induction false} BeforeIsTransitive(a: Tool, b: Tool, c: Tool)
    requires Before(a, b) && Before(b, c)
    ensures Before(a, c)
  {
    hide Low;
    if Low(a) == Low(b) == Low(c) {
      LessIsTransitive(a.name, b.name, c.name, 0);
    }
  }

  lemma {:induction false} SamePrefix(a: string, b: string, n: nat, k: nat)
    requires k < n <= |a| && n <= |b| && a[..n] == b[..n]
    ensures a[k] == b[k]
  {
    assert a[k] == a[..n][k];
  }

  lemma {:induction false} LessIsAlphabetical(a: string, b: string, i: nat)
    requires i <= |a| && i <= |b| && a[..i] == b[..i]
    ensures Less(a, b, i) <==>
            exists k: nat :: k <= |a| && k < |b| && a[..k] == b[..k] && (k == |a| || a[k] < b[k])
    decreases |a| - i
  {
    if i < |a| && i < |b| && a[i] == b[i] {
      assert a[..i + 1] == a[..i] + [a[i]] && b[..i + 1] == b[..i] + [b[i]];
      LessIsAlphabetical(a, b, i + 1);
    } else {
      forall k: nat | k <= |a| && k < |b| && a[..k] == b[..k] && (k == |a| || a[k] < b[k])
        ensures k == i
      {
        if k > i {
          SamePrefix(a, b, k, i);
        } else if k < i {
          SamePrefix(a, b, i, k);
        }
      }
    }
  }

  /** A tool of the four simulation and CAD families comes after every other tool; two tools of
      one class come in the order of their names. */
  lemma {:induction false} KeptFirst(a: Tool, b: Tool)
    ensures var low := (t: Tool) => exists p :: p in ["gazebo.", "isaac_sim.", "omniverse_usd.", "cadquery."] && p <= t.name;
            Before(a, b) <==>
            || (!low(a) && low(b))
            || (low(a) == low(b) &&
                exists k: nat :: k <= |a.name| && k < |b.name| && a.name[..k] == b.name[..k]
                                 && (k == |a.name| || a.name[k] < b.name[k]))
  {
    LessIsAlphabetical(a.name, b.name, 0);
    LowMeans(a);
    LowMeans(b);
    hide Low;
  }

  lemma {:induction false} LowMeans(t: Tool)
    ensures Low(t) <==> exists p :: p in ["gazebo.", "isaac_sim.", "omniverse_usd.", "cadquery."] && p <= t.name
  {
    assert forall p :: p in LOW_PRIORITY_PREFIXES ==> (StartsWith(t.name, p) <==> p <= t.name);
  }

  /** The drop order is a strict total order. */
  lemma {:induction false} BeforeIsTotalOrder(a: Tool, b: Tool, c: Tool)
    ensures !Before(a, a)
    ensures a != b ==> (Before(a, b) <==> !Before(b, a))
    ensures Before(a, b) && Before(b, c) ==> Before(a, c)
  {
    BeforeIsStrict(a, a);
    BeforeIsStrict(a, b);
    if Before(a, b) && Before(b, c) {
      BeforeIsTransitive(a, b, c);
    }
    hide Before;
  }

  // ----- What a plan is ---------------------------------------------------------------

  /** What a phase can never drop. */
  ghost function Must(t: Tables, deliverables: set<string>, required: set<Tool>): set<Tool> {
    t.common + (set d, x | d in deliverables && d in t.deliverable && x in t.deliverable[d] && x !in t.refused :: x)
    + (required - t.refused)
  }

  ghost function Extra(t: Tables, disciplines: set<string>, must: set<Tool>): set<Tool> {
    (set d, x | d in disciplines && d in t.profile && x in t.profile[d] && x !in t.refused :: x) - must
  }

  /** The plan the greedy loop is for. */
  ghost predicate IsPlan(must: set<Tool>, extra: set<Tool>, keep: set<Tool>, dropped: set<Tool>) {
    && must <= keep && |keep| <= PHASE_MCP_BUDGET
    && keep + dropped == must + extra && keep !! dropped
    && (dropped != {} ==> |keep| == PHASE_MCP_BUDGET)
    && forall a, b :: a in keep && a !in must && b in dropped ==> Before(a, b)
  }

  lemma {:induction false} SameSize<T>(a: set<T>, b: set<T>)
    requires |a| == |b| && a != b
    ensures exists x :: x in a && x !in b
  {
    if a <= b {
      SubsetCount(a, b);
      assert false;
    }
  }

  lemma {:induction false} NothingDropped(must: set<Tool>, extra: set<Tool>, keep: set<Tool>, dropped: set<Tool>,
            other: set<Tool>, none: set<Tool>)
    requires IsPlan(must, extra, keep, dropped) && IsPlan(must, extra, other, none) && none == {}
    ensures dropped == {}
  {
    assert keep <= other;
    SubsetCount(keep, other);
    assert dropped != {} ==> keep == other && dropped <= other;
  }

  /** There is only one plan: it is determined by the two sets. */
  lemma {:induction false} PlanIsUnique(must: set<Tool>, extra: set<Tool>, keep: set<Tool>, dropped: set<Tool>,
            keep': set<Tool>, dropped': set<Tool>)
    requires IsPlan(must, extra, keep, dropped) && IsPlan(must, extra, keep', dropped')
    ensures keep == keep' && dropped == dropped'
  {
    hide Before;
    if dropped == {} {
      NothingDropped(must, extra, keep', dropped', keep, dropped);
      assert keep == must + extra == keep';
    } else if dropped' == {} {
      NothingDropped(must, extra, keep, dropped, keep', dropped');
      assert false;
    } else {
      if keep != keep' {
        SameSize(keep, keep');
        SameSize(keep', keep);
        var a :| a in keep && a !in keep';
        var b :| b in keep' && b !in keep;
        assert a in dropped' && b in dropped && a !in must && b !in must;
        BeforeIsStrict(a, b);
        assert false;
      }
      assert dropped == (must + extra) - keep && dropped' == (must + extra) - keep';
    }
  }

  /** A plan in the terms of the call: what is common, serves a deliverable or is required by
      name is kept; of the other tools of the disciplines the first ones in drop order are kept,
      until 38 tools are there, and the rest is dropped. */
  lemma {:induction false} PlanMeans(t: Tables, disciplines: seq<string>, deliverables: seq<string>,
            required: seq<Tool>, keep: set<Tool>, dropped: set<Tool>)
    requires var must := Must(t, Elements(deliverables), Elements(required));
             IsPlan(must, Extra(t, Elements(disciplines), must), keep, dropped)
    ensures var vital := (x: Tool) => x in t.common || (x !in t.refused && (x in required
                         || exists d :: d in deliverables && d in t.deliverable && x in t.deliverable[d]));
            var wanted := (x: Tool) => x !in t.refused && exists d :: d in disciplines && d in t.profile && x in t.profile[d];
            && (forall x :: vital(x) ==> x in keep)
            && (forall x :: x in keep || x in dropped <==> vital(x) || wanted(x))
            && (forall x :: x in keep ==> x !in dropped)
            && |keep| <= 38 && (|keep| < 38 ==> dropped == {})
            && forall a, b :: a in keep && !vital(a) && b in dropped ==> Before(a, b)
  {
    hide Before;
  }

  /** What can never be dropped, in the terms of the call. */
  lemma {:induction false} MustMeans(t: Tables, deliverables: seq<string>, required: seq<Tool>, x: Tool)
    ensures x in Must(t, Elements(deliverables), Elements(required)) <==>
            || x in t.common
            || (x in required && x !in t.refused)
            || (x !in t.refused && exists d :: d in deliverables && d in t.deliverable && x in t.deliverable[d])
  {
  }

  // ----- The selection ----------------------------------------------------------------

  datatype Plan = Planned(keep: set<Tool>, dropped: set<Tool>) | OverBudget(size: nat)

  ghost predicate Ranked(s: seq<Tool>) {
    forall i, j :: 0 <= i < j < |s| ==> Before(s[i], s[j])
  }

  /** The tool of a set that is kept first. */
  method First(tools: set<Tool>) returns (best: Tool)
    requires tools != {}
    ensures best in tools && forall t :: t in tools && t != best ==> Before(best, t)
  {
    best :| best in tools;
    var left := tools - {best};
    while left != {}
      invariant best in tools && best !in left && left <= tools
      invariant forall t :: t in tools && t !in left && t != best ==> Before(best, t)
    {
      var t :| t in left;
      BeforeIsStrict(best, t);
      if Before(t, best) {
        forall u | u in tools && u !in left && u != best
          ensures Before(t, u)
        {
          BeforeIsTransitive(t, best, u);
        }
        best := t;
      }
      left := left - {t};
    }
  }

  /** `sorted(extra, key=_drop_rank)`. */
  method Sort(tools: set<Tool>) returns (s: seq<Tool>)
    ensures Ranked(s) && NoDup(s) && Elements(s) == tools
  {
    hide Before;
    s := [];
    var left := tools;
    while left != {}
      invariant left <= tools && NoDup(s) && Ranked(s)
      invariant Elements(s) == tools - left
      invariant forall i, t :: 0 <= i < |s| && t in left ==> Before(s[i], t)
      decreases |left|
    {
      var t := First(left);
      assert forall i :: 0 <= i < |s| ==> s[i] in Elements(s);
      assert Elements(s + [t]) == Elements(s) + {t};
      s := s + [t];
      left := left - {t};
    }
  }

  method Wanted(table: map<string, set<Tool>>, names: seq<string>) returns (tools: set<Tool>)
    ensures tools == set d, x | d in names && d in table && x in table[d] :: x
  {
    tools := {};
    for i := 0 to |names|
      invariant tools == set d, x | d in names[..i] && d in table && x in table[d] :: x
    {
      assert names[..i + 1] == names[..i] + [names[i]];
      if names[i] in table {
        tools := tools + table[names[i]];
      }
    }
    assert names[..|names|] == names;
  }

  /** `_phase_plan`: raises exactly when the must-haves alone exceed the budget, and otherwise
      returns the one plan the sets named in the arguments determine. */
  method PhasePlan(t: Tables, disciplines: seq<string>, deliverables: seq<string>,
            required: seq<Tool>) returns (r: Plan)
    ensures var must := Must(t, Elements(deliverables), Elements(required));
            && (r.OverBudget? <==> |must| > 38)
            && (r.OverBudget? ==> r.size == |must|)
            && (r.Planned? ==> IsPlan(must, Extra(t, Elements(disciplines), must), r.keep, r.dropped))
  {
    var forDeliverables := Wanted(t.deliverable, deliverables);
    var named := set x | x in required && x !in t.refused;
    var must := t.common + (forDeliverables - t.refused) + named;
    MustIs(t, deliverables, required, forDeliverables, named);
    if |must| > PHASE_MCP_BUDGET {
      return OverBudget(|must|);
    }
    var wanted := Wanted(t.profile, disciplines);
    var extra := (wanted - t.refused) - must;
    ExtraIs(t, disciplines, must, wanted);
    var order := Sort(extra);
    var keep, dropped := Select(must, order);
    assert Elements(order) == extra;
    return Planned(keep, dropped);
  }

  /** The plan for the first `i` extras. */
  ghost predicate Partial(must: set<Tool>, order: seq<Tool>, i: nat, keep: set<Tool>, dropped: set<Tool>)
    requires i <= |order|
  {
    IsPlan(must, Elements(order[..i]), keep, dropped)
  }

  lemma {:induction false} KeepNext(must: set<Tool>, order: seq<Tool>, i: nat, keep: set<Tool>, dropped: set<Tool>)
    requires i < |order| && NoDup(order) && must !! Elements(order)
    requires Partial(must, order, i, keep, dropped) && |keep| < PHASE_MCP_BUDGET
    ensures Partial(must, order, i + 1, keep + {order[i]}, dropped)
  {
    hide Before;
    NextElement(order, i);
    assert order[i] in Elements(order);
  }

  lemma {:induction false} DropNext(must: set<Tool>, order: seq<Tool>, i: nat, keep: set<Tool>, dropped: set<Tool>)
    requires i < |order| && NoDup(order) && Ranked(order) && must !! Elements(order)
    requires Partial(must, order, i, keep, dropped) && |keep| >= PHASE_MCP_BUDGET
    ensures Partial(must, order, i + 1, keep, dropped + {order[i]})
  {
    NextElement(order, i);
    assert order[i] in Elements(order);
    forall a | a in Elements(order[..i])
      ensures Before(a, order[i])
    {
      EarlierRanked(order, i, a);
    }
    hide Before, Ranked, NoDup, Elements;
    DropOne(must, Elements(order[..i]), keep, dropped, order[i]);
  }

  lemma {:induction false} DropOne(must: set<Tool>, extra: set<Tool>, keep: set<Tool>, dropped: set<Tool>, tool: Tool)
    requires IsPlan(must, extra, keep, dropped) && |keep| >= PHASE_MCP_BUDGET
    requires tool !in extra && tool !in must && forall a :: a in extra ==> Before(a, tool)
    ensures IsPlan(must, extra + {tool}, keep, dropped + {tool})
  {
    hide Before;
    assert tool !in keep + dropped;
    assert forall a :: a in keep && a !in must ==> a in must + extra;
  }

  /** The greedy loop over the sorted extras. */
  method Select(must: set<Tool>, order: seq<Tool>) returns (keep: set<Tool>, dropped: set<Tool>)
    requires |must| <= PHASE_MCP_BUDGET && Ranked(order) && NoDup(order) && must !! Elements(order)
    ensures IsPlan(must, Elements(order), keep, dropped)
  {
    keep, dropped := must, {};
    assert Partial(must, order, 0, keep, dropped);
    assert order[..|order|] == order;
    hide Partial, Ranked, NoDup, IsPlan;
    for i := 0 to |order|
      invariant Partial(must, order, i, keep, dropped)
      invariant |keep| <= PHASE_MCP_BUDGET
    {
      if |keep| >= PHASE_MCP_BUDGET {
        DropNext(must, order, i, keep, dropped);
        dropped := dropped + {order[i]};
      } else {
        KeepNext(must, order, i, keep, dropped);
        keep := keep + {order[i]};
      }
    }
    AllSelected(must, order, keep, dropped);
  }

  lemma {:induction false} AllSelected(must: set<Tool>, order: seq<Tool>, keep: set<Tool>, dropped: set<Tool>)
    requires Partial(must, order, |order|, keep, dropped)
    ensures IsPlan(must, Elements(order), keep, dropped)
  {
    assert order[..|order|] == order;
    hide Before;
  }

  lemma {:induction false} NextElement(order: seq<Tool>, i: nat)
    requires i < |order| && NoDup(order)
    ensures Elements(order[..i + 1]) == Elements(order[..i]) + {order[i]} && order[i] !in Elements(order[..i])
  {
    assert order[..i + 1] == order[..i] + [order[i]];
  }

  lemma {:induction false} EarlierRanked(order: seq<Tool>, i: nat, a: Tool)
    requires i < |order| && Ranked(order) && a in Elements(order[..i])
    ensures Before(a, order[i])
  {
    var j :| 0 <= j < i && order[..i][j] == a;
  }

  lemma {:induction false} MustIs(t: Tables, deliverables: seq<string>, required: seq<Tool>, wanted: set<Tool>,
            named: set<Tool>)
    requires wanted == set d, x | d in deliverables && d in t.deliverable && x in t.deliverable[d] :: x
    requires named == set x | x in required && x !in t.refused
    ensures t.common + (wanted - t.refused) + named == Must(t, Elements(deliverables), Elements(required))
  {
  }

  lemma {:induction false} ExtraIs(t: Tables, disciplines: seq<string>, must: set<Tool>, wanted: set<Tool>)
    requires wanted == set d, x | d in disciplines && d in t.profile && x in t.profile[d] :: x
    ensures (wanted - t.refused) - must == Extra(t, Elements(disciplines), must)
  {
  }

  /** Two calls whose arguments name the same things, in any order and repeated any number of
      times, can only return the same plan. */
  lemma {:induction false} OrderDoesNotMatter(t: Tables, disciplines: seq<string>, deliverables: seq<string>,
            required: seq<Tool>,
                           disciplines': seq<string>, deliverables': seq<string>, required': seq<Tool>,
                           keep: set<Tool>, dropped: set<Tool>, keep': set<Tool>, dropped': set<Tool>)
    requires Elements(disciplines) == Elements(disciplines') && Elements(deliverables) == Elements(deliverables')
    requires Elements(required) == Elements(required')
    requires var must := Must(t, Elements(deliverables), Elements(required));
             IsPlan(must, Extra(t, Elements(disciplines), must), keep, dropped)
    requires var must := Must(t, Elements(deliverables'), Elements(required'));
             IsPlan(must, Extra(t, Elements(disciplines'), must), keep', dropped')
    ensures keep == keep' && dropped == dropped'
  {
    var must := Must(t, Elements(deliverables), Elements(required));
    PlanIsUnique(must, Extra(t, Elements(disciplines), must), keep, dropped, keep', dropped');
  }
}
