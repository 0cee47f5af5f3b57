/** When a completed step stops being completed. */
module SchedulerCompletions {
  import opened Workflow
  import opened WorkflowRuns
  import opened SchedulerModel
  import opened SchedulerSafety
  import opened SchedulerProgress
  import opened SchedulerWork
  import opened SchedulerTheorems
  import opened SchedulerDuplicates

  ghost predicate IsCompleted(runs: Runs, key: Key) {
    key.run in runs && key.step in runs[key.run].steps && runs[key.run].steps[key.step] == COMPLETED
  }

  lemma {:induction false} RecordCompleted(s: State, own: Key, st: StepStatus, key: Key)
    requires IsCompleted(s.runs, key)
    ensures IsCompleted(Record(s, own, st).runs, key) <==> (key == own ==> st == COMPLETED)
  {
    hide Recompute;
  }

  lemma {:induction false} OfferCompleted(s: State, run: RunId, ks: seq<StepId>, mark: bool, key: Key)
    requires IsCompleted(s.runs, key) && (key.run == run ==> key.step !in ks)
    ensures IsCompleted(Offer(s, run, ks, |ks|, mark).runs, key)
  {
    OfferStatuses(s, run, ks, |ks|, mark);
    assert ks[..|ks|] == ks;
    hide Offer, Recompute;
  }

  lemma {:induction false} HandledCompleted(p: Plan, s: State, id: nat, key: Key)
    requires WellFormed(p) && IsCompleted(s.runs, key) && At(s, id, Reporting)
    ensures IsCompleted(DoHandled(p, s, id).runs, key)
  {
    var run := s.items[id].ticket.key.run;
    ReadyExact(p, s, run);
    hide WellFormed, Ready, Offer;
    OfferCompleted(Move(s, id, Finished), run, Ready(p, s, run), true, key);
  }

  lemma {:induction false} ExecuteCompleted(p: Plan, s: State, run: RunId, key: Key)
    requires WellFormed(p) && IsCompleted(s.runs, key) && run !in s.runs
    ensures IsCompleted(DoExecute(p, s, run).runs, key)
  {
    var started := s.(runs := s.runs[run := Started(p.deps)]);
    hide WellFormed, Ready, Offer;
    OfferCompleted(started, run, Ready(p, started, run), false, key);
  }

  lemma {:induction false} OthersCompleted(p: Plan, s: State, a: Action, key: Key)
    requires IsCompleted(s.runs, key) && Enabled(p, s, a) && !a.Execute? && !a.Handled?
    ensures IsCompleted(Apply(p, s, a).runs, key) <==> !TakesBack(p, s, a, key)
  {
    hide WithStep;
    match a
    case Begin(id, agentFound) =>
      RecordCompleted(s, s.items[id].ticket.key, if agentFound then RUNNING else FAILED, key);
    case Return(id) => RecordCompleted(s, s.items[id].ticket.key, COMPLETED, key);
    case Fail(id) => RecordCompleted(s, s.items[id].ticket.key, FAILED, key);
    case Interrupt(id) => RecordCompleted(s, s.items[id].ticket.key, SKIPPED, key);
    case _ =>
  }

  /** The exact transitions by which a completed step stops being completed. */
  lemma {:induction false} TakenBackIff(p: Plan, s: State, a: Action, key: Key)
    requires WellFormed(p) && IsCompleted(s.runs, key) && Enabled(p, s, a)
    ensures IsCompleted(Apply(p, s, a).runs, key) <==> !TakesBack(p, s, a, key)
  {
    hide WellFormed, IsCompleted, DoHandled, DoExecute;
    if a.Execute? {
      ExecuteCompleted(p, s, a.run, key);
    } else if a.Handled? {
      HandledCompleted(p, s, a.id, key);
    } else {
      hide Apply, TakesBack;
      OthersCompleted(p, s, a, key);
    }
  }

  lemma {:induction false} KeptSoFar(p: Plan, max: nat, trace: seq<State>, acts: seq<Action>, i: nat, j: nat, key: Key)
    requires WellFormed(p) && IsRun(p, max, trace, acts) && i <= j < |trace| && IsCompleted(trace[i].runs, key)
    requires forall m :: i <= m < j ==> !TakesBack(p, trace[m], acts[m], key)
    ensures IsCompleted(trace[j].runs, key)
    decreases j
  {
    hide WellFormed, IsCompleted, TakesBack, Apply, Enabled, Initial;
    if i == j {
    } else {
      KeptSoFar(p, max, trace, acts, i, j - 1, key);
      assert trace[j - 1 + 1] == Apply(p, trace[j - 1], acts[j - 1]);
      TakenBackIff(p, trace[j - 1], acts[j - 1], key);
    }
  }

  /** Over any stretch of an execution a completed step stays completed exactly if no transition
      of the stretch takes it back. */
  lemma {:induction false} CompletedForeverIff(p: Plan, max: nat, trace: seq<State>, acts: seq<Action>, i: nat, j: nat,
            key: Key)
    requires WellFormed(p) && IsRun(p, max, trace, acts) && i <= j < |trace| && IsCompleted(trace[i].runs, key)
    ensures (forall n :: i <= n <= j ==> IsCompleted(trace[n].runs, key)) <==>
            (forall m :: i <= m < j ==> !TakesBack(p, trace[m], acts[m], key))
  {
    hide WellFormed, IsCompleted, TakesBack, Apply, Enabled, Initial;
    if forall m :: i <= m < j ==> !TakesBack(p, trace[m], acts[m], key) {
      forall n | i <= n <= j
        ensures IsCompleted(trace[n].runs, key)
      {
        KeptSoFar(p, max, trace, acts, i, n, key);
      }
    }
    if forall n :: i <= n <= j ==> IsCompleted(trace[n].runs, key) {
      forall m | i <= m < j
        ensures !TakesBack(p, trace[m], acts[m], key)
      {
        assert trace[m + 1] == Apply(p, trace[m], acts[m]);
        TakenBackIff(p, trace[m], acts[m], key);
      }
    }
  }

  // ----- Linked plans -----------------------------------------------------------------

  /** A ticket that will still report has a step that is not completed. */
  ghost predicate NotYet(runs: Runs, items: Items) {
    forall i :: i in items && Awaits(items[i].place) ==> !IsCompleted(runs, items[i].ticket.key)
  }

  /** Only the report of a ticket's own success completes a step. */
  lemma {:induction false} CompletedBy(p: Plan, s: State, a: Action, key: Key)
    requires WellFormed(p) && Enabled(p, s, a) && IsCompleted(Apply(p, s, a).runs, key) && !IsCompleted(s.runs, key)
    ensures a.Return? && s.items[a.id].ticket.key == key
  {
    hide WellFormed, Recompute;
    if a.Execute? || a.Handled? {
      hide Apply, IsCompleted;
      OfferCompletes(p, s, a, key);
    }
  }

  lemma {:induction false} OfferCompletes(p: Plan, s: State, a: Action, key: Key)
    requires Enabled(p, s, a) && (a.Execute? || a.Handled?) && IsCompleted(Apply(p, s, a).runs, key)
    ensures IsCompleted(s.runs, key)
  {
    hide Ready, Offer;
    if a.Execute? {
      var started := s.(runs := s.runs[a.run := Started(p.deps)]);
      OfferStatuses(started, a.run, Ready(p, started, a.run), |Ready(p, started, a.run)|, false);
    } else {
      var m, run := Move(s, a.id, Finished), s.items[a.id].ticket.key.run;
      OfferStatuses(m, run, Ready(p, s, run), |Ready(p, s, run)|, true);
    }
    hide Recompute;
  }

  lemma {:induction false} OfferAwaits(s: State, run: RunId, ks: seq<StepId>, mark: bool, i: nat)
    requires forall j :: j in s.items ==> j < s.next
    requires i in Offer(s, run, ks, |ks|, mark).items
    ensures var t := Offer(s, run, ks, |ks|, mark);
            if i in s.items then t.items[i] == s.items[i]
            else t.items[i].ticket.key.run == run && t.items[i].ticket.key.step in ks
  {
    OfferItems(s, run, ks, |ks|, mark);
    hide Offer;
    var t := Offer(s, run, ks, |ks|, mark);
    if i !in s.items {
      assert ks[i - s.next] in ks;
    }
  }

  lemma {:induction false} HandledNotYet(p: Plan, s: State, id: nat, i: nat)
    requires WellFormed(p) && NotYet(s.runs, s.items) && At(s, id, Reporting) && forall j :: j in s.items ==> j < s.next
    requires i in DoHandled(p, s, id).items && Awaits(DoHandled(p, s, id).items[i].place)
    ensures !IsCompleted(s.runs, DoHandled(p, s, id).items[i].ticket.key)
  {
    var m, run := Move(s, id, Finished), s.items[id].ticket.key.run;
    hide Ready, Offer, WellFormed;
    ReadyExact(p, s, run);
    OfferAwaits(m, run, Ready(p, s, run), true, i);
    HandledIs(p, s, id);
    hide DoHandled;
  }

  lemma {:induction false} ExecuteNotYet(p: Plan, s: State, run: RunId, i: nat)
    requires NotYet(s.runs, s.items) && run !in s.runs && forall j :: j in s.items ==> j < s.next
    requires i in DoExecute(p, s, run).items && Awaits(DoExecute(p, s, run).items[i].place)
    ensures !IsCompleted(s.runs, DoExecute(p, s, run).items[i].ticket.key)
  {
    var started := s.(runs := s.runs[run := Started(p.deps)]);
    hide Ready, Offer, Started;
    OfferAwaits(started, run, Ready(p, started, run), false, i);
  }

  lemma {:induction false} OfferedNotYet(p: Plan, max: nat, s: State, a: Action, i: nat)
    requires WellFormed(p) && Shape(p, max, s) && NotYet(s.runs, s.items) && Enabled(p, s, a)
    requires (a.Execute? || a.Handled?) && i in Apply(p, s, a).items && Awaits(Apply(p, s, a).items[i].place)
    ensures !IsCompleted(s.runs, Apply(p, s, a).items[i].ticket.key)
  {
    hide Shape, WellFormed, DoHandled, DoExecute, NotYet, IsCompleted;
    Below(p, max, s);
    if a.Execute? {
      ExecuteNotYet(p, s, a.run, i);
    } else {
      HandledNotYet(p, s, a.id, i);
    }
  }

  lemma {:induction false} OthersNotYet(p: Plan, max: nat, s: State, a: Action, i: nat)
    requires Shape(p, max, s) && NotYet(s.runs, s.items) && Enabled(p, s, a) && !a.Execute? && !a.Handled?
    requires i in Apply(p, s, a).items && Awaits(Apply(p, s, a).items[i].place)
    ensures !IsCompleted(s.runs, Apply(p, s, a).items[i].ticket.key)
    ensures a.Return? ==> i in s.items && i != a.id && Awaits(s.items[i].place)
                          && Apply(p, s, a).items[i].ticket == s.items[i].ticket
  {
    hide Shape, IsCompleted, WithStep, Cancelled;
    if a.CancelStep? {
      CancelStepMoves(p, max, s, a.key);
      hide DoCancelStep;
    } else if MovesTask(a) {
      TaskAdvances(p, s, a);
      AwaitsStill(p, s, a);
      hide Apply, Enabled;
    }
  }

  lemma {:induction false} AwaitsStill(p: Plan, s: State, a: Action)
    requires Enabled(p, s, a) && MovesTask(a)
    ensures a.id in s.items && a.id in Apply(p, s, a).items
    ensures Awaits(Apply(p, s, a).items[a.id].place) ==> Awaits(s.items[a.id].place) && !a.Return?
  {
    hide WithStep;
  }

  lemma {:induction false} NotYetStep(p: Plan, max: nat, s: State, a: Action)
    requires WellFormed(p) && Shape(p, max, s) && NotYet(s.runs, s.items) && InLine(s.runs, s.items) && Enabled(p, s, a)
    ensures NotYet(Apply(p, s, a).runs, Apply(p, s, a).items)
  {
    hide *;
    forall i | i in Apply(p, s, a).items && Awaits(Apply(p, s, a).items[i].place)
      ensures !IsCompleted(Apply(p, s, a).runs, Apply(p, s, a).items[i].ticket.key)
    {
      NotYetItem(p, max, s, a, i);
    }
    NotYetIf(Apply(p, s, a));
  }

  lemma {:induction false} NotYetIf(t: State)
    requires forall i :: i in t.items && Awaits(t.items[i].place) ==> !IsCompleted(t.runs, t.items[i].ticket.key)
    ensures NotYet(t.runs, t.items)
  {
    hide IsCompleted, Awaits;
  }

  lemma {:induction false} NotYetItem(p: Plan, max: nat, s: State, a: Action, i: nat)
    requires WellFormed(p) && Shape(p, max, s) && NotYet(s.runs, s.items) && InLine(s.runs, s.items) && Enabled(p, s, a)
    requires i in Apply(p, s, a).items && Awaits(Apply(p, s, a).items[i].place)
    ensures !IsCompleted(Apply(p, s, a).runs, Apply(p, s, a).items[i].ticket.key)
  {
    var t := Apply(p, s, a);
    hide *;
    if a.Execute? || a.Handled? {
      OfferedNotYet(p, max, s, a, i);
    } else {
      OthersNotYet(p, max, s, a, i);
    }
    if IsCompleted(t.runs, t.items[i].ticket.key) {
      CompletedBy(p, s, a, t.items[i].ticket.key);
      WorkingAt(p, s, a);
      AwaitsLive(s.items[i].place);
      OnlyOne(s, a.id, i);
    }
  }

  lemma {:induction false} WorkingAt(p: Plan, s: State, a: Action)
    requires Enabled(p, s, a) && a.Return?
    ensures At(s, a.id, Working) && a.id in s.items && s.items[a.id].place == Working
  {
  }

  lemma {:induction false} AwaitsLive(place: Place)
    requires Awaits(place)
    ensures place != Finished
  {
  }

  lemma {:induction false} OnlyOne(s: State, i: nat, j: nat)
    requires InLine(s.runs, s.items) && i in s.items && j in s.items
    requires s.items[i].ticket.key.run == s.items[j].ticket.key.run
    requires s.items[i].place != Finished && s.items[j].place != Finished
    ensures i == j
  {
    hide RestStarted;
    assert Left(s.items, i, s.items[i].ticket.key.run) && Left(s.items, j, s.items[i].ticket.key.run);
  }

  lemma {:induction false} NotYetAt(p: Plan, max: nat, trace: seq<State>, acts: seq<Action>, n: nat)
    requires WellFormed(p) && Linked(p.deps) && IsRun(p, max, trace, acts) && n < |trace|
    ensures NotYet(trace[n].runs, trace[n].items)
  {
    hide Invariant, Apply, Enabled, WellFormed, Linked;
    if n == 0 {
      assert trace[0] == Initial(max);
    } else {
      hide Initial, NotYet, SingleFile, Shape;
      NotYetAt(p, max, trace, acts, n - 1);
      AlwaysInvariant(p, max, trace, acts, n - 1);
      Unfold(p, max, trace[n - 1]);
      SingleFileAt(p, max, trace, acts, n - 1);
      OpenSingleFile(trace[n - 1]);
      assert trace[n - 1 + 1] == Apply(p, trace[n - 1], acts[n - 1]);
      NotYetStep(p, max, trace[n - 1], acts[n - 1]);
    }
  }

  /** In a linked plan a success is taken back only by a cancellation that reaches the task while
      it reports that success. */
  lemma {:induction false} LinkedTakesBack(p: Plan, max: nat, s: State, a: Action, key: Key)
    requires WellFormed(p) && Linked(p.deps) && Reachable(p, max, s) && Enabled(p, s, a) && IsCompleted(s.runs, key)
    ensures TakesBack(p, s, a, key) <==> a.Interrupt? && At(s, a.id, Reporting) && s.items[a.id].ticket.key == key
  {
    var trace, acts :| IsRun(p, max, trace, acts) && trace[|acts|] == s;
    NotYetAt(p, max, trace, acts, |acts|);
    hide WellFormed, Linked, Reachable, IsRun, IsCompleted;
  }
}
