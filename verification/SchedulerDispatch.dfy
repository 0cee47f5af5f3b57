/** Executions of one run with one permit, built step by step: what follows if no execution
    dispatches a step twice. */
module SchedulerDispatch {
  import opened Sequences
  import opened Workflow
  import opened Digraph
  import opened DependencyEngine
  import opened WorkflowRuns
  import opened SchedulerModel
  import opened SchedulerSafety
  import opened SchedulerRetries
  import opened SchedulerTheorems
  import opened SchedulerDuplicates

  // ----- Driving one ticket -----------------------------------------------------------

  /** `t` is `s` with ticket `id` now a task at `place`. */
  ghost predicate Driven(p: Plan, max: nat, s: State, t: State, id: nat, place: Place) {
    && Reachable(p, max, t) && Continues(p, s, t) && id in s.items && t.items == s.items[id := s.items[id].(place := place)]
    && t.next == s.next && t.tombstones == s.tombstones && t.permits + 1 == s.permits
    && t.active == s.active[s.items[id].ticket.key := id]
  }

  /** The ticket can be taken from the queue and launched at once. */
  ghost predicate CanStart(p: Plan, max: nat, s: State, id: nat) {
    && Reachable(p, max, s) && At(s, id, Queued) && s.permits > 0 && s.items[id].ticket.key !in s.tombstones
    && forall i :: i in s.items ==> s.items[i].place != Held
  }

  lemma {:induction false} ToLaunched(p: Plan, max: nat, s: State, id: nat) returns (t: State)
    requires CanStart(p, max, s, id)
    ensures Driven(p, max, s, t, id, Launched) && t.runs == s.runs && t.log == s.log
  {
    hide Reachable, Continues;
    ContinuesHere(p, s);
    BothNext(p, max, s, s, Dequeue(id));
    t := Apply(p, s, Dequeue(id));
    BothNext(p, max, s, t, Acquire(id));
    t := Apply(p, t, Acquire(id));
    assert t.items == s.items[id := s.items[id].(place := Launched)];
  }

  lemma {:induction false} ToAgent(p: Plan, max: nat, s: State, t: State, id: nat) returns (u: State)
    requires Driven(p, max, s, t, id, Launched) && t.runs == s.runs && t.log == s.log
    ensures Driven(p, max, s, u, id, Working) && u.runs == Record(s, s.items[id].ticket.key, RUNNING).runs
    ensures u.log == s.log + [Attempted(s.items[id].ticket)]
  {
    hide Reachable, Continues, WithStep;
    BothNext(p, max, s, t, Begin(id, true));
    u := Apply(p, t, Begin(id, true));
    BothNext(p, max, s, u, Announced(id));
    u := Apply(p, u, Announced(id));
  }

  /** Running and then completed is the same as completed. */
  lemma {:induction false} CompletedAfterRunning(rs: RunState, k: StepId, st: StepStatus)
    ensures WithStep(WithStep(rs, k, RUNNING), k, st) == WithStep(rs, k, st)
  {
    if k in rs.steps {
      assert rs.steps[k := RUNNING][k := st] == rs.steps[k := st];
    }
    hide Derived;
  }

  lemma {:induction false} RecordTwice(s: State, m: State, key: Key, st: StepStatus)
    requires key.run in s.runs && m.runs == Record(s, key, RUNNING).runs
    ensures Record(m, key, st).runs == s.runs[key.run := WithStep(s.runs[key.run], key.step, st)]
  {
    CompletedAfterRunning(s.runs[key.run], key.step, st);
    hide WithStep;
  }

  lemma {:induction false} ToReporting(p: Plan, max: nat, s: State, id: nat) returns (t: State)
    requires CanStart(p, max, s, id) && s.items[id].ticket.key.run in s.runs
    ensures Driven(p, max, s, t, id, Reporting)
    ensures var key := s.items[id].ticket.key;
            && t.runs == s.runs[key.run := WithStep(s.runs[key.run], key.step, COMPLETED)]
            && t.log == s.log + [Attempted(s.items[id].ticket), Succeeded(key)]
  {
    hide Reachable, CanStart, WithStep, Driven;
    t := ToLaunched(p, max, s, id);
    t := ToAgent(p, max, s, t, id);
    t := ToReported(p, max, s, t, id);
  }

  lemma {:induction false} ToReported(p: Plan, max: nat, s: State, t: State, id: nat) returns (u: State)
    requires Driven(p, max, s, t, id, Working) && s.items[id].ticket.key.run in s.runs
    requires t.runs == Record(s, s.items[id].ticket.key, RUNNING).runs
    ensures Driven(p, max, s, u, id, Reporting) && u.log == t.log + [Succeeded(s.items[id].ticket.key)]
    ensures var key := s.items[id].ticket.key;
            u.runs == s.runs[key.run := WithStep(s.runs[key.run], key.step, COMPLETED)]
  {
    RecordTwice(s, t, s.items[id].ticket.key, COMPLETED);
    hide Reachable, Continues, WithStep;
    BothNext(p, max, s, t, Return(id));
    u := Apply(p, t, Return(id));
  }

  /** `u` is `t` after the handler of ticket `id` and its done callback. */
  ghost predicate HandedOver(p: Plan, t: State, u: State, id: nat, ks: seq<StepId>)
    requires id in t.items
  {
    var run, m := t.items[id].ticket.key.run, Offered(p, t, id, ks);
    && u.runs == m.runs && u.next == m.next && u.items == (map i | i in m.items && i != id :: m.items[i])
    && u.tombstones == t.tombstones && u.permits == t.permits + 1 && u.log == t.log
  }

  function Offered(p: Plan, t: State, id: nat, ks: seq<StepId>): State
    requires id in t.items
  {
    Offer(Move(t, id, Finished), t.items[id].ticket.key.run, ks, |ks|, true)
  }

  lemma {:induction false} OfferedRest(p: Plan, t: State, id: nat, ks: seq<StepId>)
    requires id in t.items && forall i :: i in t.items ==> i < t.next
    ensures var m := Offered(p, t, id, ks);
            && At(m, id, Finished) && m.tombstones == t.tombstones && m.permits == t.permits && m.log == t.log
            && m.items[id].ticket.key == t.items[id].ticket.key
  {
    OfferItems(Move(t, id, Finished), t.items[id].ticket.key.run, ks, |ks|, true);
    hide Offer;
  }

  lemma {:induction false} BelowReachable(p: Plan, max: nat, t: State)
    requires WellFormed(p) && Reachable(p, max, t)
    ensures Shape(p, max, t) && RetryOk(p, t) && forall i :: i in t.items ==> i < t.next
  {
    hide *;
    ReachableInvariant(p, max, t);
    Unfold(p, max, t);
    Below(p, max, t);
  }

  lemma {:induction false} Releases(p: Plan, max: nat, base: State, h: State, id: nat) returns (u: State)
    requires Reachable(p, max, h) && Continues(p, base, h) && At(h, id, Finished)
    ensures Reachable(p, max, u) && Continues(p, base, u)
    ensures u.runs == h.runs && u.next == h.next && u.tombstones == h.tombstones
    ensures u.items == (map i | i in h.items && i != id :: h.items[i]) && u.permits == h.permits + 1 && u.log == h.log
  {
    hide Reachable, Continues;
    BothNext(p, max, base, h, Release(id));
    u := Apply(p, h, Release(id));
  }

  lemma {:induction false} Hands(p: Plan, max: nat, t: State, id: nat)
    requires Reachable(p, max, t) && At(t, id, Reporting)
    ensures var h := Offered(p, t, id, Ready(p, t, t.items[id].ticket.key.run));
            Reachable(p, max, h) && Continues(p, t, h)
  {
    hide Reachable, Continues, Ready, Offer;
    ContinuesHere(p, t);
    BothNext(p, max, t, t, Handled(id));
  }

  lemma {:induction false} Handover(p: Plan, max: nat, t: State, id: nat) returns (u: State)
    requires WellFormed(p) && Reachable(p, max, t) && At(t, id, Reporting)
    ensures Reachable(p, max, u) && Continues(p, t, u)
    ensures HandedOver(p, t, u, id, Ready(p, t, t.items[id].ticket.key.run))
  {
    hide Reachable, Continues, WellFormed, Ready, Offered, Shape, RetryOk;
    var ready := Ready(p, t, t.items[id].ticket.key.run);
    BelowReachable(p, max, t);
    Hands(p, max, t, id);
    OfferedRest(p, t, id, ready);
    u := Releases(p, max, t, Offered(p, t, id, ready), id);
  }

  // ----- Between two steps ------------------------------------------------------------

  /** The steps of `done` completed in this order, each waiting for the one before it, and no
      other has started; what is ready waits for the last of them. */
  ghost predicate Chained(deps: Deps, steps: map<StepId, StepStatus>, done: seq<StepId>) {
    && steps.Keys == deps.Keys && NoDup(done)
    && (forall k :: k in done ==> k in steps)
    && (forall k :: k in steps ==> if k in done then steps[k] == COMPLETED else Unstarted(steps[k]))
    && (done != [] ==> IsPath(deps, done))
    && (done != [] ==> forall k :: IsReady(deps, steps, k) ==> done[|done| - 1] in deps[k])
  }

  /** Exactly the ready steps wait in the queue, one ticket each. */
  ghost predicate OnlyReady(deps: Deps, steps: map<StepId, StepStatus>, items: Items, run: RunId) {
    && (forall i :: i in items ==>
          items[i].place == Queued && items[i].ticket.key.run == run && IsReady(deps, steps, items[i].ticket.key.step))
    && (forall i, j :: i in items && j in items && items[i].ticket.key == items[j].ticket.key ==> i == j)
    && (forall k :: IsReady(deps, steps, k) ==> exists i :: i in items && items[i].ticket.key == Key(run, k))
  }

  ghost predicate Calm(p: Plan, s: State, run: RunId, done: seq<StepId>) {
    && Reachable(p, 1, s) && run in s.runs && s.permits == 1 && s.tombstones == {}
    && Chained(p.deps, s.runs[run].steps, done) && OnlyReady(p.deps, s.runs[run].steps, s.items, run)
  }

  /** One more step completed; READY marks do not matter. */
  ghost predicate StepDone(before: map<StepId, StepStatus>, after: map<StepId, StepStatus>, k: StepId) {
    && after.Keys == before.Keys && k in after && after[k] == COMPLETED
    && forall v :: v in after && v != k ==>
         (after[v] == before[v] || (Unstarted(before[v]) && Unstarted(after[v])))
  }

  lemma {:induction false} ChainedNext(deps: Deps, before: map<StepId, StepStatus>, after: map<StepId, StepStatus>,
            done: seq<StepId>, k: StepId)
    requires Chained(deps, before, done) && IsReady(deps, before, k) && StepDone(before, after, k)
    requires forall v :: IsReady(deps, before, v) ==> v == k
    ensures Chained(deps, after, done + [k])
  {
    var more := done + [k];
    assert k !in done;
    assert forall v :: v in more <==> v in done || v == k;
    assert IsPath(deps, more);
    forall v | IsReady(deps, after, v)
      ensures k in deps[v]
    {
      if k !in deps[v] {
        assert IsReady(deps, before, v);
      }
    }
    assert more[|more| - 1] == k;
  }

  lemma {:induction false} QueuedOnly(deps: Deps, steps: map<StepId, StepStatus>, m: State, o: State, left: Items,
            run: RunId, ready: seq<StepId>, id: nat)
    requires (forall i :: i in m.items <==> i == id) && id < m.next && Without(o.items, left, id)
    requires NewItems(m, o, run, ready, |ready|) && NoDup(ready) && forall k :: k in ready <==> IsReady(deps, steps, k)
    ensures OnlyReady(deps, steps, left, run)
  {
    hide IsReady;
    forall i | i in left
      ensures m.next <= i < m.next + |ready| && left[i] == Item(Ticket(Key(run, ready[i - m.next]), 0, i), Queued, false)
      ensures IsReady(deps, steps, left[i].ticket.key.step)
    {
      assert ready[i - m.next] in ready;
    }
    forall k | IsReady(deps, steps, k)
      ensures exists i :: i in left && left[i].ticket.key == Key(run, k)
    {
      var n :| 0 <= n < |ready| && ready[n] == k;
      assert m.next + n in left;
    }
    hide NewItems, Without;
  }

  /** Marking ready steps READY after one more completion. */
  lemma {:induction false} MarksDone(deps: Deps, before: RunState, mid: RunState, after: RunState, ready: seq<StepId>,
            k: StepId)
    requires mid == WithStep(before, k, COMPLETED) && k in before.steps && Marked(mid, after, ready, |ready|)
    requires forall v :: v in ready ==> IsReady(deps, mid.steps, v)
    ensures StepDone(before.steps, after.steps, k)
    ensures forall v :: IsReady(deps, after.steps, v) == IsReady(deps, mid.steps, v)
  {
    hide Recompute;
    assert ready[..|ready|] == ready;
    assert forall v :: v in after.steps ==>
      after.steps[v] == mid.steps[v] || (Unstarted(mid.steps[v]) && Unstarted(after.steps[v]));
    hide Marked;
  }

  /** The one queued ticket of a calm state. */
  lemma {:induction false} CalmStart(p: Plan, s: State, run: RunId, done: seq<StepId>, k: StepId, id: nat)
    requires Calm(p, s, run, done) && id in s.items && s.items[id].ticket.key == Key(run, k)
    ensures CanStart(p, 1, s, id)
  {
    hide Reachable, Chained, IsReady;
  }

  lemma {:induction false} CalmOne(p: Plan, s: State, run: RunId, done: seq<StepId>, k: StepId, id: nat)
    requires Calm(p, s, run, done) && id in s.items && s.items[id].ticket.key == Key(run, k)
    requires forall v :: IsReady(p.deps, s.runs[run].steps, v) ==> v == k
    ensures forall i :: i in s.items <==> i == id
    ensures IsReady(p.deps, s.runs[run].steps, k)
  {
    hide Reachable, Chained, IsReady;
    forall i | i in s.items
      ensures i == id
    {
      assert s.items[i].ticket.key == Key(run, k);
    }
  }

  /** The only ready step completes, and the next ones are queued. */
  lemma {:induction false} CalmNext(p: Plan, s: State, run: RunId, done: seq<StepId>, k: StepId,
            id: nat) returns (u: State)
    requires WellFormed(p) && Calm(p, s, run, done) && id in s.items && s.items[id].ticket.key == Key(run, k)
    requires forall v :: IsReady(p.deps, s.runs[run].steps, v) ==> v == k
    ensures Calm(p, u, run, done + [k])
  {
    hide *;
    CalmStart(p, s, run, done, k, id);
    CalmOne(p, s, run, done, k, id);
    OpenCalm(p, s, run, done);
    var t := ToReporting(p, 1, s, id);
    OpenDriven(p, 1, s, t, id, Reporting);
    BelowReachable(p, 1, t);
    u := Handover(p, 1, t, id);
    Settle(p, s, t, u, run, done, k, id);
  }

  lemma {:induction false} OpenCalm(p: Plan, s: State, run: RunId, done: seq<StepId>)
    requires Calm(p, s, run, done)
    ensures Reachable(p, 1, s) && run in s.runs && s.permits == 1 && s.tombstones == {}
    ensures Chained(p.deps, s.runs[run].steps, done) && OnlyReady(p.deps, s.runs[run].steps, s.items, run)
  {
    hide Reachable, Chained, OnlyReady;
  }

  lemma {:induction false} OpenDriven(p: Plan, max: nat, s: State, t: State, id: nat, place: Place)
    requires Driven(p, max, s, t, id, place)
    ensures Reachable(p, max, t) && At(t, id, place) && t.items[id].ticket == s.items[id].ticket
    ensures t.tombstones == s.tombstones && t.permits + 1 == s.permits && t.next == s.next
    ensures forall i :: i in t.items <==> i in s.items
    ensures forall i :: i in s.items && i != id ==> t.items[i] == s.items[i]
  {
    hide Reachable;
  }

  lemma {:induction false} Settle(p: Plan, s: State, t: State, u: State, run: RunId, done: seq<StepId>, k: StepId,
            id: nat)
    requires WellFormed(p) && Reachable(p, 1, u) && run in s.runs && run in t.runs && s.permits == 1 && s.tombstones == {}
    requires Chained(p.deps, s.runs[run].steps, done) && IsReady(p.deps, s.runs[run].steps, k)
    requires forall v :: IsReady(p.deps, s.runs[run].steps, v) ==> v == k
    requires t.runs[run] == WithStep(s.runs[run], k, COMPLETED) && t.permits == 0 && t.tombstones == {}
    requires (forall i :: i in t.items <==> i == id) && id < t.next && t.items[id].ticket.key == Key(run, k)
    requires HandedOver(p, t, u, id, Ready(p, t, run))
    ensures Calm(p, u, run, done + [k])
  {
    var ready, m := Ready(p, t, run), Move(t, id, Finished);
    var o := Offer(m, run, ready, |ready|, true);
    hide *;
    assert run == Key(run, k).run;
    HandedIs(p, t, u, id, ready);
    ReadyExact(p, t, run);
    OfferItems(m, run, ready, |ready|, true);
    OfferStatuses(m, run, ready, |ready|, true);
    MarkedIn(m, o, run, ready);
    ReadyKnown(p.deps, s.runs[run].steps, k);
    MarksDone(p.deps, s.runs[run], t.runs[run], u.runs[run], ready, k);
    QueuedOnly(p.deps, u.runs[run].steps, m, o, u.items, run, ready, id);
    ChainedNext(p.deps, s.runs[run].steps, u.runs[run].steps, done, k);
    CloseCalm(p, u, run, done + [k]);
  }

  lemma {:induction false} CloseCalm(p: Plan, s: State, run: RunId, done: seq<StepId>)
    requires Reachable(p, 1, s) && run in s.runs && s.permits == 1 && s.tombstones == {}
    requires Chained(p.deps, s.runs[run].steps, done) && OnlyReady(p.deps, s.runs[run].steps, s.items, run)
    ensures Calm(p, s, run, done)
  {
    hide Reachable, Chained, OnlyReady;
  }

  lemma {:induction false} MarkedIn(m: State, o: State, run: RunId, ready: seq<StepId>)
    requires NewStatuses(m, o, run, ready, |ready|, true) && run in m.runs
    ensures run in o.runs && Marked(m.runs[run], o.runs[run], ready, |ready|)
  {
    hide Marked;
  }

  lemma {:induction false} ReadyKnown(deps: Deps, steps: map<StepId, StepStatus>, k: StepId)
    requires IsReady(deps, steps, k)
    ensures k in deps && k in steps
  {
  }

  lemma {:induction false} HandedIs(p: Plan, t: State, u: State, id: nat, ready: seq<StepId>)
    requires id in t.items && HandedOver(p, t, u, id, ready)
    ensures var m := Move(t, id, Finished); var o := Offer(m, t.items[id].ticket.key.run, ready, |ready|, true);
            && m.runs == t.runs && m.next == t.next && u.runs == o.runs && Without(o.items, u.items, id)
            && (forall i :: i in m.items <==> i in t.items) && (forall i :: i in m.items ==> m.items[i].ticket == t.items[i].ticket)
            && u.tombstones == t.tombstones && u.permits == t.permits + 1
  {
    hide Offer;
  }

  // ----- Only linked steps are never dispatched twice ---------------------------------

  /** No execution, with any positive number of permits, has a step in the scheduler twice. */
  ghost predicate NeverTwice(p: Plan) {
    forall max: nat, s :: max > 0 && Reachable(p, max, s) ==> DispatchedOnce(s.items)
  }

  /** Two ready steps in the queue: completing one queues the other again. */
  lemma {:induction false} TwoReadyRepeat(p: Plan, s: State, run: RunId, done: seq<StepId>, u: StepId, v: StepId)
    requires WellFormed(p) && Calm(p, s, run, done) && u != v
    requires IsReady(p.deps, s.runs[run].steps, u) && IsReady(p.deps, s.runs[run].steps, v)
    ensures !NeverTwice(p)
  {
    hide *;
    var i := TicketOf(p, s, run, done, u);
    var j := TicketOf(p, s, run, done, v);
    CalmStart(p, s, run, done, u, i);
    var t := ToReporting(p, 1, s, i);
    OpenDriven(p, 1, s, t, i, Reporting);
    BelowReachable(p, 1, t);
    ReadyKnown(p.deps, s.runs[run].steps, u);
    StillReady(p, s, t, run, u, v);
    var a := Handled(i);
    WillRepeat(p, t, i, j, run, v);
    ChainsAt(p, t);
    if DispatchedOnce(t.items) {
      RepeatedIff(p, 1, t, a);
    }
    Twice(p, t, a);
  }

  lemma {:induction false} TicketOf(p: Plan, s: State, run: RunId, done: seq<StepId>, k: StepId) returns (i: nat)
    requires Calm(p, s, run, done) && IsReady(p.deps, s.runs[run].steps, k)
    ensures i in s.items && s.items[i].ticket.key == Key(run, k) && run in s.runs
  {
    hide Reachable, Chained, IsReady;
    i :| i in s.items && s.items[i].ticket.key == Key(run, k);
  }

  lemma {:induction false} StillReady(p: Plan, s: State, t: State, run: RunId, u: StepId, v: StepId)
    requires run in s.runs && t.runs == s.runs[run := WithStep(s.runs[run], u, COMPLETED)]
    requires IsReady(p.deps, s.runs[run].steps, v) && u != v && u in s.runs[run].steps
    ensures run in t.runs && IsReady(p.deps, t.runs[run].steps, v)
  {
    hide Recompute;
  }

  lemma {:induction false} WillRepeat(p: Plan, t: State, i: nat, j: nat, run: RunId, v: StepId)
    requires At(t, i, Reporting) && t.items[i].ticket.key.run == run && run in t.runs
    requires j in t.items && t.items[j].ticket.key == Key(run, v) && IsReady(p.deps, t.runs[run].steps, v)
    ensures Enabled(p, t, Handled(i)) && OffersAgain(p, t, Handled(i))
  {
    hide IsReady;
  }

  lemma {:induction false} Twice(p: Plan, t: State, a: Action)
    requires Reachable(p, 1, t) && Enabled(p, t, a)
    requires !DispatchedOnce(t.items) || !DispatchedOnce(Apply(p, t, a).items)
    ensures !NeverTwice(p)
  {
    hide Reachable, Enabled, Apply, DispatchedOnce;
    ReachableNext(p, 1, t, a);
  }

  lemma {:induction false} FirstCalm(p: Plan, run: RunId) returns (s: State)
    requires WellFormed(p)
    ensures Calm(p, s, run, [])
  {
    var started := Initial(1).(runs := map[run := Started(p.deps)]);
    var ready := Ready(p, started, run);
    s := Offer(started, run, ready, |ready|, false);
    FirstOffer(p, run);
    hide *;
    StartedAlone(p, run);
    OfferItems(started, run, ready, |ready|, false);
    OfferStatuses(started, run, ready, |ready|, false);
    ReadyExact(p, started, run);
    FirstQueued(p.deps, Started(p.deps).steps, started, s, run, ready);
    SameRun(started, s, run, ready);
    NothingChained(p.deps);
    CloseCalm(p, s, run, []);
  }

  lemma {:induction false} FirstOffer(p: Plan, run: RunId)
    ensures var started := Initial(1).(runs := map[run := Started(p.deps)]);
            var ready := Ready(p, started, run);
            Reachable(p, 1, Offer(started, run, ready, |ready|, false))
  {
    assert Initial(1).runs[run := Started(p.deps)] == map[run := Started(p.deps)];
    ReachableInitial(p, 1);
    hide Reachable, Ready, Offer, Started;
    ReachableNext(p, 1, Initial(1), Execute(run));
  }

  lemma {:induction false} StartedAlone(p: Plan, run: RunId)
    ensures var started := Initial(1).(runs := map[run := Started(p.deps)]);
            && run in started.runs && started.runs[run] == Started(p.deps) && started.next == 0
            && (forall i :: i !in started.items) && started.permits == 1 && started.tombstones == {}
  {
  }

  lemma {:induction false} SameRun(m: State, o: State, run: RunId, ks: seq<StepId>)
    requires NewStatuses(m, o, run, ks, |ks|, false) && SameRest(m, o) && run in m.runs
    ensures run in o.runs && o.runs[run] == m.runs[run] && o.permits == m.permits && o.tombstones == m.tombstones
  {
  }

  lemma {:induction false} NothingChained(deps: Deps)
    ensures Chained(deps, Started(deps).steps, [])
  {
  }

  lemma {:induction false} FirstQueued(deps: Deps, steps: map<StepId, StepStatus>, m: State, o: State, run: RunId,
            ready: seq<StepId>)
    requires NewItems(m, o, run, ready, |ready|) && NoDup(ready) && m.next == 0 && forall i :: i !in m.items
    requires forall k :: k in ready <==> IsReady(deps, steps, k)
    ensures OnlyReady(deps, steps, o.items, run)
  {
    hide IsReady;
    forall i | i in o.items
      ensures 0 <= i < |ready| && o.items[i] == Item(Ticket(Key(run, ready[i]), 0, i), Queued, false)
      ensures IsReady(deps, steps, o.items[i].ticket.key.step)
    {
      assert ready[i] in ready;
    }
    forall k | IsReady(deps, steps, k)
      ensures exists i :: i in o.items && o.items[i].ticket.key == Key(run, k)
    {
      var n :| 0 <= n < |ready| && ready[n] == k;
      assert n in o.items;
    }
    hide NewItems;
  }

  /** While a step of an acyclic plan is not completed, some step is ready. */
  lemma {:induction false} SomeReady(p: Plan, steps: map<StepId, StepStatus>, done: seq<StepId>)
    requires WellFormed(p) && Acyclic(p.deps) && Chained(p.deps, steps, done) && Elements(done) != p.deps.Keys
    ensures exists k :: IsReady(p.deps, steps, k)
  {
    var good := Elements(done);
    if forall k :: !IsReady(p.deps, steps, k) {
      forall v | v in p.deps && forall d :: d in p.deps[v] ==> d in good
        ensures v in good
      {
        assert !IsReady(p.deps, steps, v);
      }
      hide Acyclic, IsReady;
      EveryNode(p.deps, good);
    }
  }

  /** If steps all lie on one path, of any two one waits for the other. */
  lemma {:induction false} OnePath(deps: Deps, path: seq<StepId>)
    requires IsPath(deps, path) && Elements(path) == deps.Keys
    ensures Linked(deps)
  {
    hide IsPath, Leads;
    forall u, v | u in deps && v in deps && u != v
      ensures Leads(deps, u, v) || Leads(deps, v, u)
    {
      assert u in Elements(path) && v in Elements(path);
      var i :| 0 <= i < |path| && path[i] == u;
      var j :| 0 <= j < |path| && path[j] == v;
      if i < j {
        AlongPath(deps, path, i, j);
      } else {
        AlongPath(deps, path, j, i);
      }
    }
  }

  lemma {:induction false} AlongPath(deps: Deps, path: seq<StepId>, i: nat, j: nat)
    requires IsPath(deps, path) && i <= j < |path|
    ensures Leads(deps, path[i], path[j])
  {
    PathSlice(deps, path, i, j + 1);
    hide IsPath;
    assert path[i..j + 1][0] == path[i] && path[i..j + 1][j - i] == path[j];
  }

  /** Completing one ready step after the other walks along a path through all steps. */
  lemma {:induction false} WalkOn(p: Plan, s: State, run: RunId, done: seq<StepId>)
    requires WellFormed(p) && Acyclic(p.deps) && NeverTwice(p) && Calm(p, s, run, done)
    ensures Linked(p.deps)
    decreases |p.deps| - |done|
  {
    hide *;
    OpenCalm(p, s, run, done);
    DoneBound(p.deps, s.runs[run].steps, done);
    if Elements(done) == p.deps.Keys {
      if done == [] {
        NothingToLink(p.deps, done);
      } else {
        ChainedPath(p.deps, s.runs[run].steps, done);
        OnePath(p.deps, done);
      }
    } else {
      SomeReady(p, s.runs[run].steps, done);
      var k :| IsReady(p.deps, s.runs[run].steps, k);
      forall v | IsReady(p.deps, s.runs[run].steps, v)
        ensures v == k
      {
        if v != k {
          TwoReadyRepeat(p, s, run, done, k, v);
        }
      }
      var id := TicketOf(p, s, run, done, k);
      var u := CalmNext(p, s, run, done, k, id);
      OpenCalm(p, u, run, done + [k]);
      DoneBound(p.deps, u.runs[run].steps, done + [k]);
      WalkOn(p, u, run, done + [k]);
    }
  }

  lemma {:induction false} NothingToLink(deps: Deps, done: seq<StepId>)
    requires done == [] && Elements(done) == deps.Keys
    ensures Linked(deps)
  {
    hide Leads;
    assert forall v :: v in deps ==> v in Elements(done);
  }

  lemma {:induction false} ChainedPath(deps: Deps, steps: map<StepId, StepStatus>, done: seq<StepId>)
    requires Chained(deps, steps, done) && done != []
    ensures IsPath(deps, done)
  {
    hide IsReady, IsPath;
  }

  lemma {:induction false} DoneBound(deps: Deps, steps: map<StepId, StepStatus>, done: seq<StepId>)
    requires Chained(deps, steps, done)
    ensures |done| <= |deps|
  {
    hide IsReady, IsPath;
    NoDupBound(done, deps.Keys);
    assert |deps.Keys| == |deps|;
  }

  /** Exactly for linked plans no execution ever has a step in the scheduler twice. */
  lemma {:induction false} DispatchedOnceIff(p: Plan)
    requires WellFormed(p) && Acyclic(p.deps)
    ensures (forall max: nat, s :: max > 0 && Reachable(p, max, s) ==> DispatchedOnce(s.items)) <==> Linked(p.deps)
  {
    if NeverTwice(p) {
      hide *;
      var s := FirstCalm(p, RunId("r"));
      WalkOn(p, s, RunId("r"), []);
    }
    if Linked(p.deps) {
      hide Linked, Reachable, WellFormed, DispatchedOnce;
      forall max: nat, s | max > 0 && Reachable(p, max, s)
        ensures DispatchedOnce(s.items)
      {
        LinkedIsOnce(p, max, s);
      }
    }
  }
}
