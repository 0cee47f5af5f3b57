/** What the scheduler does not promise, shown on concrete executions. */
module SchedulerWitness {
  import opened Sequences
  import opened Workflow
  import opened DependencyEngine
  import opened WorkflowRuns
  import opened SchedulerModel
  import opened SchedulerSafety
  import opened SchedulerProgress
  import opened SchedulerDispatch

  const A := StepId("a")
  const B := StepId("b")
  const RUN := RunId("r")

  /** Two steps that do not depend on each other. */
  const TWO := Plan([A, B], map[A := [], B := []], map[A := 0, B := 0])

  lemma {:induction false} ReadyTwo(p: Plan, s: State)
    requires p == TWO && RUN in s.runs && s.runs[RUN].steps.Keys == {A, B}
    ensures Unstarted(s.runs[RUN].steps[A]) && Unstarted(s.runs[RUN].steps[B]) ==> Ready(p, s, RUN) == [A, B]
    ensures !Unstarted(s.runs[RUN].steps[A]) && Unstarted(s.runs[RUN].steps[B]) ==> Ready(p, s, RUN) == [B]
  {
    var st := s.runs[RUN].steps;
    assert IsReady(p.deps, st, A) == Unstarted(st[A]) && IsReady(p.deps, st, B) == Unstarted(st[B]);
    assert ReadyAmong(p.order, 0, p.deps, st) == [];
    assert ReadyAmong(p.order, 1, p.deps, st) == if IsReady(p.deps, st, A) then [A] else [];
  }

  /** The state after `Execute`: both steps queued. */
  function Queued2(): State {
    State(map[RUN := RunState(RunRunning, map[A := READY, B := READY])],
          map[0 := Item(Ticket(Key(RUN, A), 0, 0), Queued, false), 1 := Item(Ticket(Key(RUN, B), 0, 1), Queued, false)],
          2, map[], {}, 1, [])
  }

  lemma {:induction false} AfterExecute()
    ensures Apply(TWO, Initial(1), Execute(RUN)) == Queued2()
  {
    var started := Initial(1).(runs := map[RUN := Started(TWO.deps)]);
    assert Started(TWO.deps) == RunState(RunRunning, map[A := READY, B := READY]);
    ReadyTwo(TWO, started);
    var ready := Ready(TWO, started, RUN);
    assert Offer(started, RUN, ready, 0, false) == started;
    assert Offer(started, RUN, ready, 1, false) == Put(started, Ticket(Key(RUN, A), 0, 0));
    assert Offer(started, RUN, ready, 2, false).items == Queued2().items;
  }

  // ----- Two independent steps --------------------------------------------------------

  function BothSteps(a: StepStatus, b: StepStatus, status: WorkflowStatus): map<RunId, RunState> {
    map[RUN := RunState(status, map[A := a, B := b])]
  }

  lemma {:induction false} CompletesA(rs: RunState)
    requires rs == RunState(RunRunning, map[A := READY, B := READY])
    ensures WithStep(rs, A, COMPLETED) == RunState(RunRunning, map[A := COMPLETED, B := READY])
  {
    var steps := map[A := COMPLETED, B := READY];
    assert map[A := READY, B := READY][A := COMPLETED] == steps;
    assert steps[B] != COMPLETED && Derived(steps) == RunRunning;
  }

  lemma {:induction false} ReportsB(rs: RunState, st: StepStatus, after: StepStatus)
    requires rs.steps == map[A := COMPLETED, B := st] && rs.status != RunCancelled
    ensures WithStep(rs, B, after).steps == map[A := COMPLETED, B := after]
    ensures after == COMPLETED ==> WithStep(rs, B, after).status == RunCompleted
    ensures after == RUNNING ==> WithStep(rs, B, after).status == RunRunning
    ensures after == FAILED ==> WithStep(rs, B, after).status == RunFailed
  {
    var steps := map[A := COMPLETED, B := after];
    assert map[A := COMPLETED, B := st][B := after] == steps;
    assert steps[B] == after && steps[A] == COMPLETED;
  }

  /** Step `a` has completed and the second step is queued twice. */
  ghost predicate BQueuedTwice(s: State) {
    && Reachable(TWO, 1, s) && s.runs == BothSteps(COMPLETED, READY, RunRunning)
    && s.permits == 1 && s.tombstones == {} && s.next == 3
    && s.items == map[1 := Item(Ticket(Key(RUN, B), 0, 1), Queued, false), 2 := Item(Ticket(Key(RUN, B), 0, 2), Queued, false)]
    && s.log == [Attempted(Ticket(Key(RUN, A), 0, 0)), Succeeded(Key(RUN, A))]
  }

  lemma {:induction false} AfterA() returns (u: State)
    ensures BQueuedTwice(u)
  {
    var t := ReportingA();
    hide Reachable, Continues, HandedOver;
    TwoIsWellFormed();
    u := Handover(TWO, 1, t, 0);
    ReadyTwo(TWO, t);
    hide Ready;
    HandsB(t, u);
    HandoverRest(t, u, 0, [B]);
  }

  lemma {:induction false} TwoIsWellFormed()
    ensures WellFormed(TWO)
  {
    assert Elements(TWO.order) == {A, B};
  }

  lemma {:induction false} HandsB(t: State, u: State)
    requires 0 in t.items && t.items[0].ticket.key == Key(RUN, A) && t.next == 2 && HandedOver(TWO, t, u, 0, [B])
    requires t.runs == BothSteps(COMPLETED, READY, RunRunning)
    ensures u.runs == t.runs && u.next == 3
    ensures Without(t.items[2 := Item(Ticket(Key(RUN, B), 0, 2), Queued, false)], u.items, 0)
  {
    var m := Move(t, 0, Finished);
    OfferB(m);
    OfferBRuns(m);
    hide Offer;
  }

  lemma {:induction false} OfferBRuns(m: State)
    requires m.runs == BothSteps(COMPLETED, READY, RunRunning)
    ensures Offer(m, RUN, [B], 1, true).runs == m.runs && Offer(m, RUN, [B], 1, true).next == m.next + 1
  {
    var steps := map[A := COMPLETED, B := READY];
    assert Offer(m, RUN, [B], 0, true) == m;
    assert steps[B := READY] == steps;
    assert steps[B] != COMPLETED && Derived(steps) == RunRunning;
  }

  lemma {:induction false} OfferB(m: State)
    requires m.next == 2
    ensures Offer(m, RUN, [B], 1, true).items == m.items[2 := Item(Ticket(Key(RUN, B), 0, 2), Queued, false)]
  {
    hide WithStep;
    assert Offer(m, RUN, [B], 0, true) == m;
  }

  /** At-most-once dispatch is not kept: completing one step queues an independent step that
      is still in the queue a second time. */
  lemma {:induction false} QueuedTwice() returns (s: State, i: nat, j: nat)
    ensures Reachable(TWO, 1, s) && i != j && i in s.items && j in s.items
    ensures s.items[i].place == Queued && s.items[j].place == Queued && s.items[i].ticket.key == s.items[j].ticket.key
  {
    hide Reachable;
    s := AfterA();
    i, j := 1, 2;
  }

  /** A recorded success can be taken back: cancelling a step while its completion event is
      being published turns it from completed to skipped. */
  lemma {:induction false} SkippedAfterSuccess() returns (s: State)
    ensures Reachable(TWO, 1, s) && Succeeded(Key(RUN, A)) in s.log
    ensures RUN in s.runs && A in s.runs[RUN].steps && s.runs[RUN].steps[A] == SKIPPED
  {
    s := ReportingA();
    s := ToSkipped(s);
  }

  lemma {:induction false} Queued2Reachable()
    ensures Reachable(TWO, 1, Queued2())
  {
    ReachableInitial(TWO, 1);
    assert Enabled(TWO, Initial(1), Execute(RUN));
    AfterExecute();
    hide Reachable, Apply, Enabled;
    ReachableNext(TWO, 1, Initial(1), Execute(RUN));
  }

  lemma {:induction false} ReportingA() returns (t: State)
    ensures Driven(TWO, 1, Queued2(), t, 0, Reporting) && t.runs == BothSteps(COMPLETED, READY, RunRunning)
    ensures t.log == [Attempted(Ticket(Key(RUN, A), 0, 0)), Succeeded(Key(RUN, A))]
  {
    hide Reachable, Driven, WithStep;
    Queued2Reachable();
    CompletesA(Queued2().runs[RUN]);
    t := ToReporting(TWO, 1, Queued2(), 0);
  }

  lemma {:induction false} ToSkipped(s: State) returns (t: State)
    requires Driven(TWO, 1, Queued2(), s, 0, Reporting) && s.runs == BothSteps(COMPLETED, READY, RunRunning)
    requires Succeeded(Key(RUN, A)) in s.log
    ensures Reachable(TWO, 1, t) && Succeeded(Key(RUN, A)) in t.log
    ensures RUN in t.runs && A in t.runs[RUN].steps && t.runs[RUN].steps[A] == SKIPPED
  {
    hide Reachable, Derived;
    ReachableNext(TWO, 1, s, CancelStep(Key(RUN, A)));
    t := Apply(TWO, s, CancelStep(Key(RUN, A)));
    ReachableNext(TWO, 1, t, Interrupt(0));
    t := Apply(TWO, t, Interrupt(0));
  }

  // ----- A completed run that fails ---------------------------------------------------

  /** Both steps completed; a second ticket of the second step waits in the queue. */
  ghost predicate OneTooMany(s: State) {
    && Reachable(TWO, 1, s) && s.runs == BothSteps(COMPLETED, COMPLETED, RunCompleted)
    && s.permits == 1 && s.tombstones == {}
    && s.items == map[2 := Item(Ticket(Key(RUN, B), 0, 2), Queued, false)]
    && s.log == [Attempted(Ticket(Key(RUN, A), 0, 0)), Succeeded(Key(RUN, A)),
                 Attempted(Ticket(Key(RUN, B), 0, 1)), Succeeded(Key(RUN, B))]
  }

  lemma {:induction false} NothingOffered(t: State, u: State, id: nat)
    requires id in t.items && t.next == 3 && HandedOver(TWO, t, u, id, [])
    ensures u.runs == t.runs && u.items == map i | i in t.items && i != id :: t.items[i]
  {
    assert Offered(TWO, t, id, []) == Move(t, id, Finished);
  }

  lemma {:induction false} NoneReady(s: State)
    requires s.runs == BothSteps(COMPLETED, COMPLETED, RunCompleted)
    ensures Ready(TWO, s, RUN) == []
  {
    ReadyStepsExact(TWO.order, TWO.deps, s.runs[RUN].steps);
    hide ReadySteps;
    if Ready(TWO, s, RUN) != [] {
      HasMember(Ready(TWO, s, RUN));
    }
  }

  lemma {:induction false} CompletesB(s: State, t: State)
    requires s.runs == BothSteps(COMPLETED, READY, RunRunning)
    requires t.runs == s.runs[RUN := WithStep(s.runs[RUN], B, COMPLETED)]
    ensures t.runs == BothSteps(COMPLETED, COMPLETED, RunCompleted)
  {
    ReportsB(s.runs[RUN], READY, COMPLETED);
    hide WithStep;
  }

  lemma {:induction false} AfterB() returns (u: State)
    ensures OneTooMany(u)
  {
    var s := AfterA();
    hide Reachable, Continues, WithStep, HandedOver;
    var t := ToReporting(TWO, 1, s, 1);
    CompletesB(s, t);
    TwoIsWellFormed();
    u := Handover(TWO, 1, t, 1);
    NoneReady(t);
    NothingOffered(t, u, 1);
    HandoverRest(t, u, 1, []);
  }

  lemma {:induction false} HandoverRest(t: State, u: State, id: nat, ks: seq<StepId>)
    requires id in t.items && HandedOver(TWO, t, u, id, ks)
    ensures u.permits == t.permits + 1 && u.tombstones == t.tombstones && u.log == t.log
  {
    hide Offered;
  }

  /** The second ticket of the second step is a task. */
  predicate OnlyB(s: State, place: Place, runs: map<RunId, RunState>) {
    s.items == map[2 := Item(Ticket(Key(RUN, B), 0, 2), place, false)] && s.runs == runs
  }

  lemma {:induction false} LaunchesB(s: State) returns (t: State, u: State)
    requires OneTooMany(s)
    ensures Enabled(TWO, s, Dequeue(2)) && t == Apply(TWO, s, Dequeue(2))
    ensures Enabled(TWO, t, Acquire(2)) && u == Apply(TWO, t, Acquire(2))
    ensures OnlyB(u, Launched, BothSteps(COMPLETED, COMPLETED, RunCompleted))
  {
    hide Reachable;
    t := Apply(TWO, s, Dequeue(2));
    u := Apply(TWO, t, Acquire(2));
  }

  lemma {:induction false} BeginsB(s: State)
    requires OnlyB(s, Launched, BothSteps(COMPLETED, COMPLETED, RunCompleted))
    ensures Enabled(TWO, s, Begin(2, true))
    ensures OnlyB(Apply(TWO, s, Begin(2, true)), Announcing, BothSteps(COMPLETED, RUNNING, RunRunning))
  {
    ReportsB(s.runs[RUN], COMPLETED, RUNNING);
    hide WithStep;
  }

  lemma {:induction false} AnnouncesB(s: State)
    requires OnlyB(s, Announcing, BothSteps(COMPLETED, RUNNING, RunRunning))
    ensures Enabled(TWO, s, Announced(2))
    ensures OnlyB(Apply(TWO, s, Announced(2)), Working, BothSteps(COMPLETED, RUNNING, RunRunning))
  {
  }

  lemma {:induction false} WorksB(s: State) returns (t: State, u: State)
    requires OnlyB(s, Launched, BothSteps(COMPLETED, COMPLETED, RunCompleted))
    ensures Enabled(TWO, s, Begin(2, true)) && t == Apply(TWO, s, Begin(2, true))
    ensures Enabled(TWO, t, Announced(2)) && u == Apply(TWO, t, Announced(2))
    ensures OnlyB(u, Working, BothSteps(COMPLETED, RUNNING, RunRunning))
  {
    hide *;
    BeginsB(s);
    t := Apply(TWO, s, Begin(2, true));
    AnnouncesB(t);
    u := Apply(TWO, t, Announced(2));
  }

  lemma {:induction false} FailsB(s: State) returns (t: State)
    requires OnlyB(s, Working, BothSteps(COMPLETED, RUNNING, RunRunning))
    ensures Enabled(TWO, s, Fail(2)) && t == Apply(TWO, s, Fail(2))
    ensures RUN in t.runs && t.runs[RUN].status == RunFailed
  {
    ReportsB(s.runs[RUN], RUNNING, FAILED);
    hide WithStep;
    t := Apply(TWO, s, Fail(2));
  }

  lemma {:induction false} OneTooManyIs(s: State)
    requires OneTooMany(s)
    ensures Reachable(TWO, 1, s) && RUN in s.runs && s.runs[RUN].status == RunCompleted
    ensures s.log == [Attempted(Ticket(Key(RUN, A), 0, 0)), Succeeded(Key(RUN, A)),
                      Attempted(Ticket(Key(RUN, B), 0, 1)), Succeeded(Key(RUN, B))]
  {
    hide Reachable;
  }

  /** Without any cancellation a completed run can become failed: the second ticket of a step
      that was dispatched twice runs after the run completed, and fails. */
  lemma {:induction false} CompletedThenFailed() returns (trace: seq<State>, acts: seq<Action>)
    ensures IsStretch(TWO, trace, acts) && Reachable(TWO, 1, trace[0])
    ensures acts == [Dequeue(2), Acquire(2), Begin(2, true), Announced(2), Fail(2)]
    ensures trace[0].log == [Attempted(Ticket(Key(RUN, A), 0, 0)), Succeeded(Key(RUN, A)),
                             Attempted(Ticket(Key(RUN, B), 0, 1)), Succeeded(Key(RUN, B))]
    ensures RUN in trace[0].runs && trace[0].runs[RUN].status == RunCompleted
    ensures RUN in trace[5].runs && trace[5].runs[RUN].status == RunFailed
  {
    hide *;
    var s := AfterB();
    OneTooManyIs(s);
    var s1, s2 := LaunchesB(s);
    var s3, s4 := WorksB(s2);
    var s5 := FailsB(s4);
    trace := [s, s1, s2, s3, s4, s5];
    acts := [Dequeue(2), Acquire(2), Begin(2, true), Announced(2), Fail(2)];
    FiveSteps(trace, acts);
  }

  lemma {:induction false} FiveSteps(trace: seq<State>, acts: seq<Action>)
    requires |acts| == 5 && |trace| == 6
    requires Enabled(TWO, trace[0], acts[0]) && trace[1] == Apply(TWO, trace[0], acts[0])
    requires Enabled(TWO, trace[1], acts[1]) && trace[2] == Apply(TWO, trace[1], acts[1])
    requires Enabled(TWO, trace[2], acts[2]) && trace[3] == Apply(TWO, trace[2], acts[2])
    requires Enabled(TWO, trace[3], acts[3]) && trace[4] == Apply(TWO, trace[3], acts[3])
    requires Enabled(TWO, trace[4], acts[4]) && trace[5] == Apply(TWO, trace[4], acts[4])
    ensures IsStretch(TWO, trace, acts)
  {
    hide Enabled, Apply;
    forall i | 0 <= i < 5
      ensures Enabled(TWO, trace[i], acts[i]) && trace[i + 1] == Apply(TWO, trace[i], acts[i])
    {
      assert i == 0 || i == 1 || i == 2 || i == 3 || i == 4;
    }
  }

  // ----- A lost step that is repaired -------------------------------------------------

  /** Step `a` is with its agent, and the queued step `b` has just been cancelled. */
  ghost predicate BTombstoned(s: State) {
    && Reachable(TWO, 1, s) && s.runs == BothSteps(RUNNING, READY, RunRunning) && s.permits == 0
    && s.tombstones == {Key(RUN, B)} && s.next == 2 && s.active == map[Key(RUN, A) := 0]
    && s.items == map[0 := Item(Ticket(Key(RUN, A), 0, 0), Working, false), 1 := Item(Ticket(Key(RUN, B), 0, 1), Queued, false)]
    && s.log == [Attempted(Ticket(Key(RUN, A), 0, 0))]
  }

  lemma {:induction false} RunsA(s: State)
    requires s.runs == BothSteps(READY, READY, RunRunning)
    ensures Record(s, Key(RUN, A), RUNNING).runs == BothSteps(RUNNING, READY, RunRunning)
  {
    var steps := map[A := RUNNING, B := READY];
    assert map[A := READY, B := READY][A := RUNNING] == steps;
    assert steps[B] != COMPLETED && Derived(steps) == RunRunning;
  }

  lemma {:induction false} ToTombstoned() returns (s: State)
    ensures BTombstoned(s)
  {
    hide Reachable, Continues, WithStep;
    Queued2Reachable();
    RunsA(Queued2());
    var l := ToLaunched(TWO, 1, Queued2(), 0);
    var w := ToAgent(TWO, 1, Queued2(), l, 0);
    ReachableNext(TWO, 1, w, CancelStep(Key(RUN, B)));
    s := Apply(TWO, w, CancelStep(Key(RUN, B)));
  }

  lemma {:induction false} DropHarms(s: State)
    requires BTombstoned(s)
    ensures Enabled(TWO, s, Dequeue(1)) && Harms(TWO, s, Dequeue(1), Key(RUN, B))
  {
    hide Reachable;
    BAlone(s);
    hide CoveredBut, HandlerDue, BusyBut;
  }

  lemma {:induction false} BAlone(s: State)
    requires BTombstoned(s)
    ensures !CoveredBut(s.items, 1, Key(RUN, B)) && !HandlerDue(s.items, RUN)
  {
    hide Reachable;
  }

  /** Only step `a` is left in the scheduler, with its agent. */
  ghost predicate BDropped(s: State) {
    && Reachable(TWO, 1, s) && s.runs == BothSteps(RUNNING, READY, RunRunning) && s.permits == 0
    && s.tombstones == {} && s.next == 2
    && s.items == map[0 := Item(Ticket(Key(RUN, A), 0, 0), Working, false)]
  }

  lemma {:induction false} ToDropped(s: State)
    requires BTombstoned(s)
    ensures Enabled(TWO, s, Dequeue(1)) && BDropped(Apply(TWO, s, Dequeue(1)))
  {
    hide Reachable;
    ReachableNext(TWO, 1, s, Dequeue(1));
  }

  lemma {:induction false} ReturnsA(s: State) returns (t: State)
    requires BDropped(s)
    ensures Reachable(TWO, 1, t) && Continues(TWO, s, t) && At(t, 0, Reporting)
    ensures t.items == map[0 := Item(Ticket(Key(RUN, A), 0, 0), Reporting, false)]
    ensures t.runs == BothSteps(COMPLETED, READY, RunRunning) && t.permits == 0 && t.tombstones == {} && t.next == 2
  {
    RecordsA(s);
    hide Reachable, Continues, WithStep;
    ContinuesHere(TWO, s);
    BothNext(TWO, 1, s, s, Return(0));
    t := Apply(TWO, s, Return(0));
  }

  lemma {:induction false} RecordsA(s: State)
    requires s.runs == BothSteps(RUNNING, READY, RunRunning)
    ensures Record(s, Key(RUN, A), COMPLETED).runs == BothSteps(COMPLETED, READY, RunRunning)
  {
    var steps := map[A := COMPLETED, B := READY];
    assert map[A := RUNNING, B := READY][A := COMPLETED] == steps;
    assert steps[B] != COMPLETED && Derived(steps) == RunRunning;
  }

  /** Step `b` is queued again, by the handler of step `a`. */
  ghost predicate BBack(s: State) {
    && Reachable(TWO, 1, s) && s.runs == BothSteps(COMPLETED, READY, RunRunning) && s.permits == 1
    && s.tombstones == {} && s.next == 3
    && s.items == map[2 := Item(Ticket(Key(RUN, B), 0, 2), Queued, false)]
  }

  lemma {:induction false} OffersB(t: State) returns (u: State)
    requires Reachable(TWO, 1, t) && t.items == map[0 := Item(Ticket(Key(RUN, A), 0, 0), Reporting, false)]
    requires t.runs == BothSteps(COMPLETED, READY, RunRunning) && t.permits == 0 && t.tombstones == {} && t.next == 2
    ensures Continues(TWO, t, u) && BBack(u)
  {
    var b := Item(Ticket(Key(RUN, B), 0, 2), Queued, false);
    assert Without(map[0 := t.items[0], 2 := b], map[2 := b], 0);
    assert t.items[2 := b] == map[0 := t.items[0], 2 := b];
    ReadyTwo(TWO, t);
    assert 0 in t.items && t.items[0].ticket.key == Key(RUN, A) && At(t, 0, Reporting) && Key(RUN, A).run == RUN;
    hide *;
    TwoIsWellFormed();
    u := Handover(TWO, 1, t, 0);
    HandsB(t, u);
    HandoverRest(t, u, 0, [B]);
    SameWithout(t.items[2 := b], u.items, map[2 := b], 0);
    BackIf(u);
  }

  lemma {:induction false} SameWithout(items: Items, left: Items, other: Items, id: nat)
    requires Without(items, left, id) && Without(items, other, id)
    ensures left == other
  {
  }

  lemma {:induction false} BackIf(s: State)
    requires Reachable(TWO, 1, s) && s.runs == BothSteps(COMPLETED, READY, RunRunning) && s.permits == 1
    requires s.tombstones == {} && s.next == 3
    requires s.items == map[2 := Item(Ticket(Key(RUN, B), 0, 2), Queued, false)]
    ensures BBack(s)
  {
    hide Reachable;
  }

  lemma {:induction false} FinishesB(s: State) returns (u: State)
    requires BBack(s)
    ensures Reachable(TWO, 1, u) && Continues(TWO, s, u) && u.items == map[]
    ensures u.runs == BothSteps(COMPLETED, COMPLETED, RunCompleted)
  {
    hide Reachable, Continues, WithStep, HandedOver;
    var t := ToReporting(TWO, 1, s, 2);
    CompletesB(s, t);
    TwoIsWellFormed();
    u := Handover(TWO, 1, t, 2);
    NoneReady(t);
    NothingOffered(t, u, 2);
    ContinuesOn(TWO, s, t, u);
  }

  /** A harm need not cost the run anything: the only entry of a step is dropped, the handler of
      another step offers the step again, and the run completes. */
  lemma {:induction false} HarmedYetCompleted() returns (s: State, t: State)
    ensures Reachable(TWO, 1, s) && Enabled(TWO, s, Dequeue(1)) && Harms(TWO, s, Dequeue(1), Key(RUN, B))
    ensures Continues(TWO, Apply(TWO, s, Dequeue(1)), t) && t.items == map[]
    ensures t.runs == BothSteps(COMPLETED, COMPLETED, RunCompleted)
  {
    s := ToTombstoned();
    hide *;
    DropHarms(s);
    ToDropped(s);
    TombstonedReachable(s);
    var d := Apply(TWO, s, Dequeue(1));
    var r := ReturnsA(d);
    var b := OffersB(r);
    t := FinishesB(b);
    ContinuesOn(TWO, d, r, b);
    ContinuesOn(TWO, d, b, t);
  }

  lemma {:induction false} TombstonedReachable(s: State)
    requires BTombstoned(s)
    ensures Reachable(TWO, 1, s)
  {
    hide Reachable;
  }

  // ----- A cancelled queue entry ------------------------------------------------------

  const ONE := Plan([A], map[A := []], map[A := 0])

  /** The one step of `ONE` waits in the queue. */
  ghost predicate QueuedOne(s: State) {
    && Reachable(ONE, 1, s) && s.runs == map[RUN := RunState(RunRunning, map[A := READY])] && s.active == map[]
    && s.items == map[0 := Item(Ticket(Key(RUN, A), 0, 0), Queued, false)] && s.tombstones == {} && s.permits == 1
  }

  lemma {:induction false} AtQueueOne() returns (s: State)
    ensures QueuedOne(s)
  {
    ReachableInitial(ONE, 1);
    assert Enabled(ONE, Initial(1), Execute(RUN));
    ExecuteOne();
    hide Reachable, Apply, Enabled;
    ReachableNext(ONE, 1, Initial(1), Execute(RUN));
    s := Apply(ONE, Initial(1), Execute(RUN));
  }

  /** Cancelling a step that waits in the queue leaves it ready with nothing in the scheduler
      to run it: the run is at rest and still running. This is why completion is promised
      only to runs whose every harm is repaired. */
  lemma {:induction false} CancelledEntryIsLost() returns (s: State)
    ensures Reachable(ONE, 1, s) && s.items == map[]
    ensures RUN in s.runs && s.runs[RUN] == RunState(RunRunning, map[A := READY])
  {
    s := AtQueueOne();
    hide Reachable;
    ReachableNext(ONE, 1, s, CancelStep(Key(RUN, A)));
    s := Apply(ONE, s, CancelStep(Key(RUN, A)));
    ReachableNext(ONE, 1, s, Dequeue(0));
    s := Apply(ONE, s, Dequeue(0));
  }

  lemma {:induction false} ExecuteOne()
    ensures var s := Apply(ONE, Initial(1), Execute(RUN));
            && s.runs == map[RUN := RunState(RunRunning, map[A := READY])] && s.active == map[]
            && s.tombstones == {} && s.permits == 1
            && s.items == map[0 := Item(Ticket(Key(RUN, A), 0, 0), Queued, false)]
  {
    var started := Initial(1).(runs := map[RUN := Started(ONE.deps)]);
    assert Started(ONE.deps) == RunState(RunRunning, map[A := READY]);
    assert ReadyAmong(ONE.order, 0, ONE.deps, map[A := READY]) == [];
    assert Ready(ONE, started, RUN) == [A];
    assert Offer(started, RUN, [A], 0, false) == started;
    assert Offer(started, RUN, [A], 1, false) == Put(started, Ticket(Key(RUN, A), 0, 0));
  }

  /** The one ticket of `ONE` is a task at `place`; nothing else is in the scheduler. */
  ghost predicate Only(s: State, place: Place, st: StepStatus, asked: bool) {
    && Reachable(ONE, 1, s) && s.runs == map[RUN := RunState(RunRunning, map[A := st])]
    && s.items == map[0 := Item(Ticket(Key(RUN, A), 0, 0), place, asked)]
    && Key(RUN, A) in s.active && s.active[Key(RUN, A)] == 0 && s.tombstones == if asked then {Key(RUN, A)} else {}
  }

  lemma {:induction false} OnlyLaunched() returns (s: State)
    ensures Only(s, Launched, READY, false)
  {
    var q := AtQueueOne();
    hide Reachable;
    s := ToLaunched(ONE, 1, q, 0);
  }

  lemma {:induction false} RecordOne(s: State)
    requires s.runs == map[RUN := RunState(RunRunning, map[A := READY])]
    ensures Record(s, Key(RUN, A), RUNNING).runs == map[RUN := RunState(RunRunning, map[A := RUNNING])]
  {
    var steps := map[A := RUNNING];
    assert map[A := READY][A := RUNNING] == steps;
    assert steps[A] != COMPLETED && Derived(steps) == RunRunning;
  }

  lemma {:induction false} OnlyCancelled(s: State) returns (t: State)
    requires Only(s, Launched, READY, false)
    ensures Only(t, Announcing, RUNNING, true)
  {
    hide Reachable, WithStep;
    RecordOne(s);
    ReachableNext(ONE, 1, s, Begin(0, true));
    t := Apply(ONE, s, Begin(0, true));
    ReachableNext(ONE, 1, t, CancelStep(Key(RUN, A)));
    t := Apply(ONE, t, CancelStep(Key(RUN, A)));
  }

  lemma {:induction false} OnlyInterrupted(s: State) returns (t: State)
    requires Only(s, Announcing, RUNNING, true)
    ensures Reachable(ONE, 1, t) && t.items == map[] && t.runs == map[RUN := RunState(RunRunning, map[A := RUNNING])]
  {
    hide Reachable, WithStep;
    ReachableNext(ONE, 1, s, Interrupt(0));
    t := Apply(ONE, s, Interrupt(0));
    ReachableNext(ONE, 1, t, Release(0));
    t := Apply(ONE, t, Release(0));
  }

  /** Cancelling a step between its RUNNING report and the agent call leaves it running for
      ever: the interrupt is caught nowhere and nothing is left to report on the step. */
  lemma {:induction false} InterruptedStepIsLost() returns (s: State)
    ensures Reachable(ONE, 1, s) && s.items == map[]
    ensures RUN in s.runs && s.runs[RUN] == RunState(RunRunning, map[A := RUNNING])
  {
    hide *;
    s := OnlyLaunched();
    s := OnlyCancelled(s);
    s := OnlyInterrupted(s);
    assert RUN in map[RUN := RunState(RunRunning, map[A := RUNNING])];
  }
}