/** Invariants of every reachable scheduler state. */
module SchedulerSafety {
  import opened Workflow
  import opened DependencyEngine
  import opened WorkflowRuns
  import opened SchedulerModel

  // ----- What enqueueing ready steps does ---------------------------------------------

  /** `after` has, besides the items of `before`, one fresh queued ticket for each of the
      first `n` of `ks`. */
  ghost predicate NewItems(before: State, after: State, run: RunId, ks: seq<StepId>, n: nat)
    requires n <= |ks|
  {
    && after.next == before.next + n
    && (forall i :: i in after.items <==> i in before.items || before.next <= i < before.next + n)
    && (forall i :: i in before.items ==> i in after.items && after.items[i] == before.items[i])
    && (forall m :: before.next <= m < before.next + n && m in after.items ==>
          after.items[m] == Item(Ticket(Key(run, ks[m - before.next]), 0, m), Queued, false))
  }

  /** In one run, exactly the first `n` of `ks` were recorded READY. */
  ghost predicate Marked(before: RunState, after: RunState, ks: seq<StepId>, n: nat)
    requires n <= |ks|
  {
    && after.steps.Keys == before.steps.Keys
    && (forall k :: k in after.steps ==> after.steps[k] == if k in ks[..n] then READY else before.steps[k])
    && (after == before || after.status == Recompute(before.status, after.steps))
  }

  ghost predicate NewStatuses(before: State, after: State, run: RunId, ks: seq<StepId>, n: nat, mark: bool)
    requires n <= |ks|
  {
    && after.runs.Keys == before.runs.Keys
    && (forall r :: r in after.runs && (r != run || !mark) ==> after.runs[r] == before.runs[r])
    && (run in before.runs && mark ==> Marked(before.runs[run], after.runs[run], ks, n))
  }

  ghost predicate SameRest(before: State, after: State) {
    && after.active == before.active && after.tombstones == before.tombstones
    && after.permits == before.permits && after.log == before.log
  }

  lemma {:induction false} MarkOne(before: RunState, mid: RunState, ks: seq<StepId>, n: nat)
    requires 0 < n <= |ks| && Marked(before, mid, ks, n - 1)
    ensures Marked(before, WithStep(mid, ks[n - 1], READY), ks, n)
  {
    assert ks[..n] == ks[..n - 1] + [ks[n - 1]];
  }

  lemma {:induction false} OfferItems(s: State, run: RunId, ks: seq<StepId>, n: nat, mark: bool)
    requires n <= |ks| && forall i :: i in s.items ==> i < s.next
    ensures NewItems(s, Offer(s, run, ks, n, mark), run, ks, n) && SameRest(s, Offer(s, run, ks, n, mark))
    decreases n
  {
    if n == 0 {
    } else {
      OfferItems(s, run, ks, n - 1, mark);
    }
  }

  lemma {:induction false} OfferStatuses(s: State, run: RunId, ks: seq<StepId>, n: nat, mark: bool)
    requires n <= |ks|
    ensures NewStatuses(s, Offer(s, run, ks, n, mark), run, ks, n, mark)
    decreases n
  {
    if n == 0 {
    } else {
      OfferStatuses(s, run, ks, n - 1, mark);
      if mark && run in s.runs {
        MarkOne(s.runs[run], Offer(s, run, ks, n - 1, mark).runs[run], ks, n);
      }
      hide Marked;
    }
  }

  // ----- Shape: ids, tasks, the active map and the semaphore ---------------------------

  type Items = map<nat, Item>

  ghost function Tasks(items: Items): set<nat> {
    set i | i in items && IsTask(items[i].place)
  }

  ghost predicate RunsOk(p: Plan, runs: map<RunId, RunState>) {
    forall r :: r in runs ==> runs[r].steps.Keys == p.deps.Keys
  }

  ghost predicate ItemsOk(p: Plan, rs: set<RunId>, items: Items, next: nat) {
    forall i :: i in items ==> i < next && items[i].ticket.key.run in rs && items[i].ticket.key.step in p.deps
  }

  ghost predicate OneHeld(items: Items) {
    forall i, j :: i in items && j in items && items[i].place == Held && items[j].place == Held ==> i == j
  }

  /** The task a key maps to is a live one of that key. */
  ghost predicate ActiveOk(items: Items, active: map<Key, nat>) {
    forall k :: k in active ==> active[k] in items && items[active[k]].ticket.key == k && IsTask(items[active[k]].place)
  }

  ghost predicate PermitsOk(max: nat, items: Items, permits: nat) {
    permits + |Tasks(items)| == max
  }

  ghost predicate Shape(p: Plan, max: nat, s: State) {
    && RunsOk(p, s.runs) && ItemsOk(p, s.runs.Keys, s.items, s.next) && OneHeld(s.items)
    && ActiveOk(s.items, s.active) && PermitsOk(max, s.items, s.permits)
  }

  // Each part of the shape, under each kind of change to the items.

  lemma {:induction false} ReplaceKnown(p: Plan, rs: set<RunId>, items: Items, next: nat, id: nat, item: Item)
    requires ItemsOk(p, rs, items, next) && id in items && item.ticket.key == items[id].ticket.key
    ensures ItemsOk(p, rs, items[id := item], next)
  {
  }

  lemma {:induction false} ReplaceHeld(items: Items, id: nat, item: Item)
    requires OneHeld(items) && id in items
    requires item.place != Held || forall i :: i in items ==> items[i].place != Held
    ensures OneHeld(items[id := item])
  {
  }

  lemma {:induction false} ReplaceActive(items: Items, active: map<Key, nat>, id: nat, item: Item)
    requires ActiveOk(items, active) && id in items && item.ticket.key == items[id].ticket.key
    requires IsTask(item.place) == IsTask(items[id].place)
    ensures ActiveOk(items[id := item], active)
  {
  }

  lemma {:induction false} ReplacePermits(max: nat, items: Items, permits: nat, id: nat, item: Item)
    requires PermitsOk(max, items, permits) && id in items
    requires IsTask(item.place) == IsTask(items[id].place)
    ensures PermitsOk(max, items[id := item], permits)
  {
    assert Tasks(items[id := item]) == Tasks(items);
  }

  ghost predicate MoreQueued(before: Items, after: Items) {
    && (forall i :: i in before ==> i in after && after[i] == before[i])
    && (forall i :: i in after && i !in before ==> after[i].place == Queued)
  }

  lemma {:induction false} MoreHeld(items: Items, after: Items)
    requires OneHeld(items) && MoreQueued(items, after)
    ensures OneHeld(after)
  {
  }

  lemma {:induction false} MoreActive(items: Items, after: Items, active: map<Key, nat>)
    requires ActiveOk(items, active) && MoreQueued(items, after)
    ensures ActiveOk(after, active)
  {
  }

  lemma {:induction false} MorePermits(max: nat, items: Items, after: Items, permits: nat)
    requires PermitsOk(max, items, permits) && MoreQueued(items, after)
    ensures PermitsOk(max, after, permits)
  {
    assert Tasks(after) == Tasks(items);
  }

  ghost predicate Without(before: Items, after: Items, id: nat) {
    after == map i | i in before && i != id :: before[i]
  }

  lemma {:induction false} WithoutKnown(p: Plan, rs: set<RunId>, items: Items, after: Items, next: nat, id: nat)
    requires ItemsOk(p, rs, items, next) && OneHeld(items) && Without(items, after, id)
    ensures ItemsOk(p, rs, after, next) && OneHeld(after)
  {
  }

  lemma {:induction false} WithoutQueued(max: nat, items: Items, after: Items, active: map<Key, nat>, permits: nat,
            id: nat)
    requires ActiveOk(items, active) && PermitsOk(max, items, permits)
    requires id in items && !IsTask(items[id].place) && Without(items, after, id)
    ensures ActiveOk(after, active) && PermitsOk(max, after, permits)
  {
    assert Tasks(after) == Tasks(items);
  }

  lemma {:induction false} WithoutTask(max: nat, items: Items, after: Items, active: map<Key, nat>, permits: nat,
            id: nat)
    requires ActiveOk(items, active) && PermitsOk(max, items, permits)
    requires id in items && IsTask(items[id].place) && Without(items, after, id)
    ensures ActiveOk(after, active - {items[id].ticket.key}) && PermitsOk(max, after, permits + 1)
  {
    assert Tasks(items) == Tasks(after) + {id} && id !in Tasks(after);
  }

  lemma {:induction false} LaunchActive(items: Items, active: map<Key, nat>, id: nat, item: Item)
    requires ActiveOk(items, active) && id in items && item.ticket.key == items[id].ticket.key
    requires !IsTask(items[id].place) && IsTask(item.place)
    ensures ActiveOk(items[id := item], active[item.ticket.key := id])
  {
  }

  lemma {:induction false} LaunchPermits(max: nat, items: Items, permits: nat, id: nat, item: Item)
    requires PermitsOk(max, items, permits) && id in items && permits > 0
    requires !IsTask(items[id].place) && IsTask(item.place)
    ensures PermitsOk(max, items[id := item], permits - 1)
  {
    assert id !in Tasks(items) && Tasks(items[id := item]) == Tasks(items) + {id};
  }

  // The shape under each transition.

  /** Replacing an item by one of the same key that is as much a task as before. */
  lemma {:induction false} ReplaceItem(p: Plan, max: nat, s: State, id: nat, item: Item)
    requires Shape(p, max, s) && id in s.items
    requires item.ticket.key == s.items[id].ticket.key && item.place != Held
    requires IsTask(item.place) == IsTask(s.items[id].place)
    ensures Shape(p, max, s.(items := s.items[id := item]))
  {
    hide RunsOk, ItemsOk, OneHeld, ActiveOk, PermitsOk;
    ReplaceKnown(p, s.runs.Keys, s.items, s.next, id, item);
    ReplaceHeld(s.items, id, item);
    ReplaceActive(s.items, s.active, id, item);
    ReplacePermits(max, s.items, s.permits, id, item);
  }

  lemma {:induction false} RecordRuns(p: Plan, s: State, key: Key, st: StepStatus)
    requires RunsOk(p, s.runs)
    ensures RunsOk(p, Record(s, key, st).runs) && Record(s, key, st).runs.Keys == s.runs.Keys
  {
    hide Recompute;
  }

  lemma {:induction false} ShapeRecord(p: Plan, max: nat, s: State, key: Key, st: StepStatus)
    requires Shape(p, max, s)
    ensures Shape(p, max, Record(s, key, st))
  {
    hide RunsOk, ItemsOk, OneHeld, ActiveOk, PermitsOk, WithStep;
    RecordRuns(p, s, key, st);
  }

  /** New queued tickets for known steps disturb nothing. */
  lemma {:induction false} ShapeQueued(p: Plan, max: nat, s: State, t: State)
    requires Shape(p, max, s) && RunsOk(p, t.runs) && ItemsOk(p, t.runs.Keys, t.items, t.next)
    requires t.active == s.active && t.permits == s.permits && MoreQueued(s.items, t.items)
    ensures Shape(p, max, t)
  {
    hide RunsOk, ItemsOk, OneHeld, ActiveOk, PermitsOk, MoreQueued;
    MoreHeld(s.items, t.items);
    MoreActive(s.items, t.items, s.active);
    MorePermits(max, s.items, t.items, s.permits);
  }

  lemma {:induction false} OfferKnown(p: Plan, s: State, t: State, run: RunId, ks: seq<StepId>)
    requires ItemsOk(p, s.runs.Keys, s.items, s.next) && NewItems(s, t, run, ks, |ks|)
    requires run in s.runs && forall k :: k in ks ==> k in p.deps
    ensures ItemsOk(p, s.runs.Keys, t.items, t.next) && MoreQueued(s.items, t.items)
  {
    forall i | i in t.items
      ensures i < t.next && t.items[i].ticket.key.run in s.runs.Keys && t.items[i].ticket.key.step in p.deps
    {
      if i !in s.items {
        assert ks[i - s.next] in ks;
      }
    }
  }

  lemma {:induction false} OfferRuns(p: Plan, s: State, t: State, run: RunId, ks: seq<StepId>, mark: bool)
    requires RunsOk(p, s.runs) && NewStatuses(s, t, run, ks, |ks|, mark)
    ensures RunsOk(p, t.runs) && t.runs.Keys == s.runs.Keys
  {
    forall r | r in t.runs
      ensures t.runs[r].steps.Keys == p.deps.Keys
    {
      assert r in s.runs;
    }
  }

  lemma {:induction false} KnownBelow(p: Plan, rs: set<RunId>, items: Items, next: nat)
    requires ItemsOk(p, rs, items, next)
    ensures forall i :: i in items ==> i < next
  {
  }

  lemma {:induction false} Below(p: Plan, max: nat, s: State)
    requires Shape(p, max, s)
    ensures forall i :: i in s.items ==> i < s.next
  {
    hide RunsOk, OneHeld, ActiveOk, PermitsOk;
  }

  lemma {:induction false} ShapeOffer(p: Plan, max: nat, s: State, run: RunId, ks: seq<StepId>, mark: bool)
    requires Shape(p, max, s) && run in s.runs && forall k :: k in ks ==> k in p.deps
    ensures Shape(p, max, Offer(s, run, ks, |ks|, mark))
  {
    var t := Offer(s, run, ks, |ks|, mark);
    hide RunsOk, ItemsOk, OneHeld, ActiveOk, PermitsOk, MoreQueued, Offer, NewItems, NewStatuses;
    KnownBelow(p, s.runs.Keys, s.items, s.next);
    OfferItems(s, run, ks, |ks|, mark);
    OfferStatuses(s, run, ks, |ks|, mark);
    OfferKnown(p, s, t, run, ks);
    OfferRuns(p, s, t, run, ks, mark);
    ShapeQueued(p, max, s, t);
  }

  lemma {:induction false} ShapeDequeue(p: Plan, max: nat, s: State, id: nat)
    requires Shape(p, max, s) && Enabled(p, s, Dequeue(id))
    ensures Shape(p, max, DoDequeue(s, id))
  {
    hide RunsOk, ItemsOk, OneHeld, ActiveOk, PermitsOk;
    var t := DoDequeue(s, id);
    if s.items[id].ticket.key in s.tombstones {
      WithoutKnown(p, s.runs.Keys, s.items, t.items, s.next, id);
      WithoutQueued(max, s.items, t.items, s.active, s.permits, id);
    } else {
      var item := t.items[id];
      ReplaceKnown(p, s.runs.Keys, s.items, s.next, id, item);
      ReplaceHeld(s.items, id, item);
      ReplaceActive(s.items, s.active, id, item);
      ReplacePermits(max, s.items, s.permits, id, item);
    }
  }

  lemma {:induction false} ShapeAcquire(p: Plan, max: nat, s: State, id: nat)
    requires Shape(p, max, s) && Enabled(p, s, Acquire(id))
    ensures Shape(p, max, DoAcquire(s, id))
  {
    hide RunsOk, ItemsOk, OneHeld, ActiveOk, PermitsOk;
    var item := s.items[id].(place := Launched);
    ReplaceKnown(p, s.runs.Keys, s.items, s.next, id, item);
    ReplaceHeld(s.items, id, item);
    LaunchActive(s.items, s.active, id, item);
    LaunchPermits(max, s.items, s.permits, id, item);
  }

  /** The callback may pop a newer task of its key, never one of another key. */
  lemma {:induction false} ShapeRelease(p: Plan, max: nat, s: State, id: nat)
    requires Shape(p, max, s) && Enabled(p, s, Release(id))
    ensures Shape(p, max, DoRelease(s, id))
  {
    hide RunsOk, ItemsOk, OneHeld, ActiveOk, PermitsOk;
    var t := DoRelease(s, id);
    WithoutKnown(p, s.runs.Keys, s.items, t.items, s.next, id);
    WithoutTask(max, s.items, t.items, s.active, s.permits, id);
  }

  lemma {:induction false} MoreRuns(p: Plan, rs: set<RunId>, more: set<RunId>, items: Items, next: nat)
    requires ItemsOk(p, rs, items, next) && rs <= more
    ensures ItemsOk(p, more, items, next)
  {
  }

  lemma {:induction false} ShapeRuns(p: Plan, max: nat, s: State, t: State)
    requires Shape(p, max, s) && s.runs.Keys <= t.runs.Keys && RunsOk(p, t.runs)
    requires t.items == s.items && t.active == s.active && t.permits == s.permits && t.next == s.next
    ensures Shape(p, max, t)
  {
    hide RunsOk, ItemsOk, OneHeld, ActiveOk, PermitsOk;
    MoreRuns(p, s.runs.Keys, t.runs.Keys, s.items, s.next);
  }

  lemma {:induction false} ReadyInPlan(p: Plan, s: State, run: RunId)
    ensures forall k :: k in Ready(p, s, run) ==> k in p.deps
  {
    if run in s.runs {
      ReadyStepsExact(p.order, p.deps, s.runs[run].steps);
    }
  }

  lemma {:induction false} NewRun(p: Plan, runs: map<RunId, RunState>, run: RunId, state: RunState)
    requires RunsOk(p, runs) && state.steps.Keys == p.deps.Keys
    ensures RunsOk(p, runs[run := state])
  {
  }

  lemma {:induction false} ShapeExecute(p: Plan, max: nat, s: State, run: RunId)
    requires Shape(p, max, s)
    ensures Shape(p, max, DoExecute(p, s, run))
  {
    hide RunsOk, ItemsOk, OneHeld, ActiveOk, PermitsOk, Offer, Ready;
    var started := s.(runs := s.runs[run := Started(p.deps)]);
    NewRun(p, s.runs, run, Started(p.deps));
    ShapeRuns(p, max, s, started);
    ReadyInPlan(p, started, run);
    hide Shape;
    ShapeOffer(p, max, started, run, Ready(p, started, run), false);
  }

  lemma {:induction false} KnownItem(p: Plan, max: nat, s: State, id: nat)
    requires Shape(p, max, s) && id in s.items
    ensures id < s.next && s.items[id].ticket.key.run in s.runs && s.items[id].ticket.key.step in p.deps
  {
    hide RunsOk, OneHeld, ActiveOk, PermitsOk;
    assert s.items[id].ticket.key.run in s.runs.Keys;
  }

  lemma {:induction false} ShapeHandled(p: Plan, max: nat, s: State, id: nat)
    requires Shape(p, max, s) && Enabled(p, s, Handled(id))
    ensures Shape(p, max, DoHandled(p, s, id))
  {
    hide Shape, Ready, Offer;
    var run := s.items[id].ticket.key.run;
    KnownItem(p, max, s, id);
    ReplaceItem(p, max, s, id, s.items[id].(place := Finished));
    ReadyInPlan(p, s, run);
    ShapeOffer(p, max, Move(s, id, Finished), run, Ready(p, s, run), true);
  }

  lemma {:induction false} ActiveTask(p: Plan, max: nat, s: State, key: Key)
    requires Shape(p, max, s) && key in s.active
    ensures s.active[key] in s.items && IsTask(s.items[s.active[key]].place)
    ensures s.items[s.active[key]].ticket.key == key
  {
    hide RunsOk, ItemsOk, OneHeld, PermitsOk;
  }

  lemma {:induction false} ShapeCancelStep(p: Plan, max: nat, s: State, key: Key)
    requires Shape(p, max, s)
    ensures Shape(p, max, DoCancelStep(s, key))
  {
    if key in s.active {
      ActiveTask(p, max, s, key);
      ReplaceItem(p, max, s, s.active[key], s.items[s.active[key]].(cancelRequested := true));
    }
    hide RunsOk, ItemsOk, OneHeld, ActiveOk, PermitsOk;
  }

  lemma {:induction false} ShapeCancelRun(p: Plan, max: nat, s: State, run: RunId)
    requires Shape(p, max, s) && run in s.runs
    ensures Shape(p, max, DoCancelRun(s, run))
  {
    assert s.runs[run].steps.Keys == p.deps.Keys;
    hide RunsOk, ItemsOk, OneHeld, ActiveOk, PermitsOk;
    NewRun(p, s.runs, run, Cancelled(s.runs[run]));
    ShapeRuns(p, max, s, DoCancelRun(s, run));
  }

  lemma {:induction false} PutKnown(p: Plan, rs: set<RunId>, items: Items, next: nat, t: Ticket)
    requires ItemsOk(p, rs, items, next) && t.key.run in rs && t.key.step in p.deps
    ensures ItemsOk(p, rs, items[next := Item(t, Queued, false)], next + 1)
    ensures MoreQueued(items, items[next := Item(t, Queued, false)])
  {
  }

  lemma {:induction false} ShapeWake(p: Plan, max: nat, s: State, id: nat)
    requires Shape(p, max, s) && Enabled(p, s, Wake(id))
    ensures Shape(p, max, DoWake(s, id))
  {
    hide RunsOk, ItemsOk, OneHeld, ActiveOk, PermitsOk, MoreQueued;
    KnownItem(p, max, s, id);
    ReplaceItem(p, max, s, id, s.items[id].(place := Finished));
    var m := Move(s, id, Finished);
    PutKnown(p, m.runs.Keys, m.items, m.next, s.items[id].ticket);
    ShapeQueued(p, max, m, DoWake(s, id));
  }

  predicate MovesTask(a: Action) {
    a.Begin? || a.Announced? || a.Return? || a.Fail? || a.Published? || a.Interrupt?
  }

  /** The task `id` moves on, possibly after recording a status for its own step. */
  ghost predicate Advanced(s: State, t: State, id: nat) {
    && id in s.items && id in t.items && t.items == s.items[id := t.items[id]]
    && IsTask(s.items[id].place) && IsTask(t.items[id].place)
    && t.items[id].ticket.key == s.items[id].ticket.key
    && t.active == s.active && t.permits == s.permits && t.next == s.next
    && (t.runs == s.runs || exists st :: t.runs == Record(s, s.items[id].ticket.key, st).runs)
  }

  lemma {:induction false} TaskAdvances(p: Plan, s: State, a: Action)
    requires Enabled(p, s, a) && MovesTask(a)
    ensures Advanced(s, Apply(p, s, a), a.id)
  {
    assert a.id in s.items;
    hide WithStep, Enabled;
    var t := Apply(p, s, a);
    var st := if a.Begin? then (if a.agentFound then RUNNING else FAILED)
              else if a.Return? then COMPLETED else if a.Fail? then FAILED else SKIPPED;
    assert t.runs == s.runs || t.runs == Record(s, s.items[a.id].ticket.key, st).runs;
  }

  lemma {:induction false} ShapeTask(p: Plan, max: nat, s: State, t: State, id: nat)
    requires Shape(p, max, s) && Advanced(s, t, id)
    ensures Shape(p, max, t)
  {
    hide RunsOk, ItemsOk, OneHeld, ActiveOk, PermitsOk, WithStep;
    if t.runs != s.runs {
      var st :| t.runs == Record(s, s.items[id].ticket.key, st).runs;
      ShapeRecord(p, max, s, s.items[id].ticket.key, st);
      ReplaceItem(p, max, Record(s, s.items[id].ticket.key, st), id, t.items[id]);
    } else {
      ReplaceItem(p, max, s, id, t.items[id]);
    }
  }

  lemma {:induction false} ShapeStep(p: Plan, max: nat, s: State, a: Action)
    requires Shape(p, max, s) && Enabled(p, s, a)
    ensures Shape(p, max, Apply(p, s, a))
  {
    if MovesTask(a) {
      TaskAdvances(p, s, a);
      hide Apply, Shape, Advanced;
      ShapeTask(p, max, s, Apply(p, s, a), a.id);
    } else {
      hide Shape, DoExecute, DoCancelStep, DoCancelRun, DoDequeue, DoAcquire, DoRelease, DoHandled, DoWake;
      match a
      case Execute(run) => ShapeExecute(p, max, s, run);
      case CancelStep(key) => ShapeCancelStep(p, max, s, key);
      case CancelRun(run) => ShapeCancelRun(p, max, s, run);
      case Dequeue(id) => ShapeDequeue(p, max, s, id);
      case Acquire(id) => ShapeAcquire(p, max, s, id);
      case Release(id) => ShapeRelease(p, max, s, id);
      case Handled(id) => ShapeHandled(p, max, s, id);
      case Wake(id) => ShapeWake(p, max, s, id);
    }
  }
}
