/** When a run that comes to rest is settled: exactly if every step that was lost was repaired. */
module SchedulerRepairs {
  import opened Workflow
  import opened Digraph
  import opened DependencyEngine
  import opened WorkflowRuns
  import opened SchedulerModel
  import opened SchedulerSafety
  import opened SchedulerWork
  import opened SchedulerProgress
  import opened SchedulerTheorems

  // ----- Stretches --------------------------------------------------------------------

  lemma {:induction false} StretchInvariant(p: Plan, max: nat, trace: seq<State>, acts: seq<Action>, n: nat)
    requires WellFormed(p) && IsStretch(p, trace, acts) && Invariant(p, max, trace[0]) && n < |trace|
    ensures Invariant(p, max, trace[n])
  {
    hide Invariant, Apply, Enabled, WellFormed;
    if n == 0 {
    } else {
      StretchInvariant(p, max, trace, acts, n - 1);
      assert trace[n - 1 + 1] == Apply(p, trace[n - 1], acts[n - 1]);
      InvariantStep(p, max, trace[n - 1], acts[n - 1]);
    }
  }

  lemma {:induction false} RunStays(p: Plan, trace: seq<State>, acts: seq<Action>, i: nat, j: nat, r: RunId)
    requires IsStretch(p, trace, acts) && i <= j < |trace| && r in trace[i].runs
    ensures r in trace[j].runs && trace[i].log <= trace[j].log
    decreases j
  {
    hide Apply, Enabled;
    if i == j {
    } else {
      RunStays(p, trace, acts, i, j - 1, r);
      assert trace[j - 1 + 1] == Apply(p, trace[j - 1], acts[j - 1]);
      LogKept(p, trace[j - 1], acts[j - 1]);
    }
  }

  /** What one transition of a stretch does to one step. */
  lemma {:induction false} ExactAt(p: Plan, max: nat, trace: seq<State>, acts: seq<Action>, n: nat, key: Key)
    requires WellFormed(p) && IsStretch(p, trace, acts) && Invariant(p, max, trace[0]) && n < |acts|
    requires key.run in trace[n].runs
    ensures Enabled(p, trace[n], acts[n]) && trace[n + 1] == Apply(p, trace[n], acts[n])
    ensures !Lost(p, trace[n], key) ==> (Lost(p, trace[n + 1], key) <==> Harms(p, trace[n], acts[n], key))
    ensures Lost(p, trace[n], key) ==> (!Lost(p, trace[n + 1], key) <==> Repairs(p, trace[n], acts[n], key))
    ensures Harms(p, trace[n], acts[n], key) ==> Lost(p, trace[n + 1], key)
  {
    assert Enabled(p, trace[n], acts[n]) && trace[n + 1] == Apply(p, trace[n], acts[n]);
    hide *;
    StretchInvariant(p, max, trace, acts, n);
    Unfold(p, max, trace[n]);
    LostIff(p, max, trace[n], acts[n], key);
    OpenExact(p, trace[n], acts[n], key);
  }

  // ----- Whole executions -------------------------------------------------------------

  /** A transition after the `m`-th repairs the step. */
  ghost predicate RepairedAfter(p: Plan, trace: seq<State>, acts: seq<Action>, m: nat, key: Key)
    requires IsStretch(p, trace, acts)
  {
    exists j :: m < j < |acts| && Repairs(p, trace[j], acts[j], key)
  }

  /** Each harm to a step of the run is followed by a repair of that step. */
  ghost predicate AllRepaired(p: Plan, trace: seq<State>, acts: seq<Action>, r: RunId)
    requires IsStretch(p, trace, acts)
  {
    forall m: nat, k :: m < |acts| && Harms(p, trace[m], acts[m], Key(r, k)) ==> RepairedAfter(p, trace, acts, m, Key(r, k))
  }

  ghost predicate Unrepaired(p: Plan, trace: seq<State>, acts: seq<Action>, key: Key)
    requires IsStretch(p, trace, acts)
  {
    exists m: nat :: m < |acts| && Harms(p, trace[m], acts[m], key) && !RepairedAfter(p, trace, acts, m, key)
  }

  lemma {:induction false} StaysLost(p: Plan, max: nat, trace: seq<State>, acts: seq<Action>, i: nat, j: nat, key: Key)
    requires WellFormed(p) && IsStretch(p, trace, acts) && Invariant(p, max, trace[0]) && i <= j < |trace|
    requires Lost(p, trace[i], key) && forall m :: i <= m < j ==> !Repairs(p, trace[m], acts[m], key)
    ensures Lost(p, trace[j], key)
    decreases j
  {
    hide Invariant, Apply, Enabled, WellFormed, LostIn, Repairs, Harms;
    if i == j {
    } else {
      StaysLost(p, max, trace, acts, i, j - 1, key);
      ExactAt(p, max, trace, acts, j - 1, key);
    }
  }

  /** A lost step has been lost since a harm that nothing repaired. */
  lemma {:induction false} LostSince(p: Plan, max: nat, trace: seq<State>, acts: seq<Action>, n: nat, key: Key)
    returns (m: nat)
    requires WellFormed(p) && IsRun(p, max, trace, acts) && n < |trace| && Lost(p, trace[n], key)
    ensures m < n && Harms(p, trace[m], acts[m], key)
    ensures forall j :: m < j < n ==> !Repairs(p, trace[j], acts[j], key)
  {
    hide Invariant, Apply, Enabled, WellFormed, LostIn, Repairs, Harms;
    InvariantInitial(p, max);
    if n == 0 {
      assert false;
    } else {
      hide Initial;
      assert trace[n - 1 + 1] == Apply(p, trace[n - 1], acts[n - 1]) && Enabled(p, trace[n - 1], acts[n - 1]);
      if key.run !in trace[n - 1].runs {
        StretchInvariant(p, max, trace, acts, n - 1);
        Unfold(p, max, trace[n - 1]);
        assert key.run in trace[n].runs && Key(key.run, key.step) == key;
        hide Lost, Shape;
        StartExact(p, max, trace[n - 1], acts[n - 1], key.run, key.step);
        assert false;
      } else {
        ExactAt(p, max, trace, acts, n - 1, key);
        if Lost(p, trace[n - 1], key) {
          m := LostSince(p, max, trace, acts, n - 1, key);
        } else {
          m := n - 1;
        }
      }
    }
  }

  /** At the end of an execution a step is lost exactly if it was harmed and never repaired
      since. */
  lemma {:induction false} LostAtEndIff(p: Plan, max: nat, trace: seq<State>, acts: seq<Action>, key: Key)
    requires WellFormed(p) && IsRun(p, max, trace, acts)
    ensures Lost(p, trace[|acts|], key) <==> Unrepaired(p, trace, acts, key)
  {
    hide Invariant, Apply, Enabled, WellFormed, Lost, Repairs, Harms;
    if Lost(p, trace[|acts|], key) {
      var m := LostSince(p, max, trace, acts, |acts|, key);
      assert !RepairedAfter(p, trace, acts, m, key);
    }
    if m: nat :| m < |acts| && Harms(p, trace[m], acts[m], key) && !RepairedAfter(p, trace, acts, m, key) {
      InvariantInitial(p, max);
      HarmKnown(p, trace[m], acts[m], key);
      ExactAt(p, max, trace, acts, m, key);
      StaysLost(p, max, trace, acts, m + 1, |acts|, key);
    }
  }

  lemma {:induction false} HarmKnown(p: Plan, s: State, a: Action, key: Key)
    requires Enabled(p, s, a) && Harms(p, s, a, key)
    ensures key.run in s.runs
  {
  }

  /** Whatever the interleaving and whatever was cancelled: a run at rest is settled exactly if it
      was not withdrawn and every harm to a step of it was followed by a repair of that step. */
  lemma {:induction false} SettledIff(p: Plan, max: nat, trace: seq<State>, acts: seq<Action>, r: RunId)
    requires WellFormed(p) && Acyclic(p.deps) && p.deps != map[] && IsRun(p, max, trace, acts)
    requires r in trace[|acts|].runs && Quiescent(trace[|acts|])
    ensures Settled(p, trace[|acts|].runs[r]) <==> !Withdrawn(trace[|acts|].log, r) && AllRepaired(p, trace, acts, r)
  {
    var end := trace[|acts|];
    hide *;
    RunIsStretch(p, max, trace, acts);
    AlwaysInvariant(p, max, trace, acts, |acts|);
    EndOfRun(p, max, end, r);
    forall k
      ensures Lost(p, end, Key(r, k)) <==> Unrepaired(p, trace, acts, Key(r, k))
    {
      LostAtEndIff(p, max, trace, acts, Key(r, k));
    }
    RepairedIff(p, trace, acts, end, r);
  }

  lemma {:induction false} RunIsStretch(p: Plan, max: nat, trace: seq<State>, acts: seq<Action>)
    requires IsRun(p, max, trace, acts)
    ensures IsStretch(p, trace, acts) && |acts| < |trace|
    ensures forall i :: 0 <= i < |acts| ==> Enabled(p, trace[i], acts[i])
  {
    hide Enabled, Apply, Initial;
  }

  lemma {:induction false} RepairedIff(p: Plan, trace: seq<State>, acts: seq<Action>, end: State, r: RunId)
    requires IsStretch(p, trace, acts)
    requires forall k :: Lost(p, end, Key(r, k)) <==> Unrepaired(p, trace, acts, Key(r, k))
    ensures AllRepaired(p, trace, acts, r) <==> forall k :: !Lost(p, end, Key(r, k))
  {
    hide Lost, Harms, RepairedAfter, Enabled, Apply;
    forall k
      ensures Unrepaired(p, trace, acts, Key(r, k)) <==>
              exists m: nat :: m < |acts| && Harms(p, trace[m], acts[m], Key(r, k))
                               && !RepairedAfter(p, trace, acts, m, Key(r, k))
    {
    }
  }

  /** At rest a run is settled exactly if it was not withdrawn and no step of it is lost. */
  lemma {:induction false} EndOfRun(p: Plan, max: nat, s: State, r: RunId)
    requires WellFormed(p) && Acyclic(p.deps) && p.deps != map[] && Invariant(p, max, s) && r in s.runs && Quiescent(s)
    ensures Settled(p, s.runs[r]) <==> !Withdrawn(s.log, r) && forall k :: !Lost(p, s, Key(r, k))
  {
    Unfold(p, max, s);
    RunKnown(p, max, s, r);
    SettledIffNothingLost(p, s, r);
    NeverCancelled(s.runs[r].steps);
    hide Lost, Settled, Derived, Shape, Invariant, Withdrawn;
  }

  lemma {:induction false} RunKnown(p: Plan, max: nat, s: State, r: RunId)
    requires Shape(p, max, s) && r in s.runs
    ensures s.runs[r].steps.Keys == p.deps.Keys
  {
    hide ItemsOk, OneHeld, ActiveOk, PermitsOk;
  }

  /** In particular a run that no transition harmed is settled at rest: asking for cancellations
      does no damage by itself. */
  lemma {:induction false} UnharmedRunSettles(p: Plan, max: nat, trace: seq<State>, acts: seq<Action>, r: RunId)
    requires WellFormed(p) && Acyclic(p.deps) && p.deps != map[] && IsRun(p, max, trace, acts)
    requires r in trace[|acts|].runs && Quiescent(trace[|acts|]) && !Withdrawn(trace[|acts|].log, r)
    requires forall m: nat, k :: m < |acts| ==> !Harms(p, trace[m], acts[m], Key(r, k))
    ensures Settled(p, trace[|acts|].runs[r])
  {
    SettledIff(p, max, trace, acts, r);
    hide Harms, Settled, Withdrawn, IsRun, WellFormed, Acyclic;
  }

  // ----- Losses for good --------------------------------------------------------------

  lemma {:induction false} QuietAwaits(p: Plan, s: State, a: Action)
    requires Enabled(p, s, a) && IsQuiet(p, s, a)
    ensures a.id in s.items
    ensures Awaits(PlaceAfter(s, a)) ==> Awaits(s.items[a.id].place)
    ensures InHand(PlaceAfter(s, a)) ==> InHand(s.items[a.id].place)
  {
  }

  lemma {:induction false} ReportAwaits(p: Plan, s: State, a: Action)
    requires Enabled(p, s, a) && IsReport(p, s, a)
    ensures a.id in s.items
    ensures Awaits(ReportPlace(a)) ==> Awaits(s.items[a.id].place)
    ensures !InHand(ReportPlace(a))
  {
  }

  /** A step gets a ticket on its way, or one that awaits, only from a handler that finds it
      ready, or from a ticket of it that slept. */
  ghost predicate TicketsFrom(p: Plan, s: State, a: Action, key: Key)
    requires Enabled(p, s, a)
  {
    var after := Apply(p, s, a).items;
    var offered := a.Handled? && s.items[a.id].ticket.key.run == key.run && key.step in Ready(p, s, key.run);
    && (Busy(after, key) ==> Busy(s.items, key) || offered)
    && (Covered(after, key) ==> Covered(s.items, key) || offered || (a.Wake? && s.items[a.id].ticket.key == key))
  }

  lemma {:induction false} TicketsIf(p: Plan, s: State, a: Action, key: Key)
    requires Enabled(p, s, a)
    requires Busy(Apply(p, s, a).items, key) ==> Busy(s.items, key)
    requires Covered(Apply(p, s, a).items, key) ==>
               Covered(s.items, key) || (a.Wake? && s.items[a.id].ticket.key == key)
    ensures TicketsFrom(p, s, a, key)
  {
    hide Busy, Covered, Ready;
  }

  lemma {:induction false} TicketsOffered(p: Plan, s: State, a: Action, key: Key)
    requires Enabled(p, s, a) && a.Handled? && s.items[a.id].ticket.key.run == key.run
    requires key.step in Ready(p, s, key.run)
    ensures TicketsFrom(p, s, a, key)
  {
    hide Busy, Covered, Ready;
  }

  lemma {:induction false} OwnTickets(p: Plan, max: nat, s: State, a: Action, key: Key)
    requires Shape(p, max, s) && Enabled(p, s, a) && key.run in s.runs && (IsQuiet(p, s, a) || IsReport(p, s, a))
    ensures TicketsFrom(p, s, a, key)
  {
    hide *;
    if IsQuiet(p, s, a) {
      QuietKind(p, s, a);
      QuietMoves(p, s, a);
      QuietAwaits(p, s, a);
      MovedBusy(s.items, Apply(p, s, a).items, a.id, PlaceAfter(s, a), key);
      MovedCover(s.items, Apply(p, s, a).items, a.id, PlaceAfter(s, a), key);
    } else {
      ReportKind(p, s, a);
      ReportMoves(p, max, s, a);
      ReportAwaits(p, s, a);
      MovedBusy(s.items, Apply(p, s, a).items, a.id, ReportPlace(a), key);
      MovedCover(s.items, Apply(p, s, a).items, a.id, ReportPlace(a), key);
    }
    SelfCover(s.items, a.id, key);
    TicketsIf(p, s, a, key);
  }

  lemma {:induction false} WakeTickets(p: Plan, max: nat, s: State, a: Action, key: Key)
    requires Shape(p, max, s) && Enabled(p, s, a) && a.Wake?
    ensures TicketsFrom(p, s, a, key)
  {
    WakeDoes(p, s, a);
    hide *;
    StepKnown(p, max, s, a.id);
    WakeKeeps(s, a.id, key);
    TicketsIf(p, s, a, key);
  }

  lemma {:induction false} NewTickets(p: Plan, max: nat, s: State, a: Action, key: Key)
    requires Shape(p, max, s) && Enabled(p, s, a) && key.run in s.runs
    ensures TicketsFrom(p, s, a, key)
  {
    StepOwner(p, max, s, a);
    KindOf(p, s, a);
    if RunOf(s, a) != key.run {
      hide *;
      AgreeStep(p, max, s, a, key.run);
      AgreeBusy(s, Apply(p, s, a), key);
      TicketsIf(p, s, a, key);
    } else {
      RunOfIs(s, a);
      hide *;
      if a.CancelStep? || a.CancelRun? {
        CancelBusy(p, max, s, a, key);
        TicketsIf(p, s, a, key);
      } else if a.Handled? {
        if key.step in Ready(p, s, key.run) {
          TicketsOffered(p, s, a, key);
        } else {
          HandledFrom(p, max, s, a, key);
          TicketsIf(p, s, a, key);
        }
      } else if a.Wake? {
        WakeTickets(p, max, s, a, key);
      } else {
        OwnTickets(p, max, s, a, key);
      }
    }
  }

  lemma {:induction false} QuietKind(p: Plan, s: State, a: Action)
    requires Enabled(p, s, a) && IsQuiet(p, s, a)
    ensures a.Dequeue? || a.Acquire? || a.Announced? || a.Published? || a.Release? || a.Fail? || a.Interrupt?
  {
  }

  lemma {:induction false} ReportKind(p: Plan, s: State, a: Action)
    requires Enabled(p, s, a) && IsReport(p, s, a)
    ensures a.Begin? || a.Return? || a.Fail? || a.Interrupt?
  {
  }

  lemma {:induction false} AgreeBusy(s: State, t: State, key: Key)
    requires Agree(s, t, key.run)
    ensures Busy(t.items, key) <==> Busy(s.items, key)
    ensures Covered(t.items, key) <==> Covered(s.items, key)
  {
  }

  lemma {:induction false} CancelBusy(p: Plan, max: nat, s: State, a: Action, key: Key)
    requires Shape(p, max, s) && Enabled(p, s, a) && (a.CancelStep? || a.CancelRun?)
    ensures Busy(Apply(p, s, a).items, key) ==> Busy(s.items, key)
    ensures Covered(Apply(p, s, a).items, key) ==> Covered(s.items, key)
  {
    hide Shape, Cancelled;
    if a.CancelStep? {
      CancelStepMoves(p, max, s, a.key);
      hide DoCancelStep;
      assert forall i :: i in Apply(p, s, a).items ==> i in Apply(p, s, a).items.Keys && i in s.items;
    }
  }

  lemma {:induction false} HandledFrom(p: Plan, max: nat, s: State, a: Action, key: Key)
    requires Shape(p, max, s) && Enabled(p, s, a) && a.Handled? && s.items[a.id].ticket.key.run == key.run
    requires key.step !in Ready(p, s, key.run)
    ensures Busy(Apply(p, s, a).items, key) ==> Busy(s.items, key)
    ensures Covered(Apply(p, s, a).items, key) ==> Covered(s.items, key)
  {
    var m, ready := Move(s, a.id, Finished), Ready(p, s, key.run);
    HandledDoes(p, s, a);
    HandledBegins(p, max, s, a.id);
    hide *;
    OfferItems(m, key.run, ready, |ready|, true);
    OfferFrom(s, Offer(m, key.run, ready, |ready|, true), a.id, ready, key);
  }

  lemma {:induction false} OfferFrom(s: State, t: State, id: nat, ready: seq<StepId>, key: Key)
    requires At(s, id, Reporting) && key.step !in ready
    requires NewItems(Move(s, id, Finished), t, key.run, ready, |ready|)
    ensures Busy(t.items, key) ==> Busy(s.items, key)
    ensures Covered(t.items, key) ==> Covered(s.items, key)
  {
    assert forall n :: 0 <= n < |ready| ==> ready[n] in ready && ready[n] != key.step;
    if i :| i in t.items && t.items[i].ticket.key == key && Awaits(t.items[i].place) {
      assert i in s.items;
    }
    if i :| i in t.items && t.items[i].ticket.key == key && InHand(t.items[i].place) {
      assert i in s.items;
    }
  }

  /** Shown running, or skipped, and no ticket of it will report. */
  ghost predicate Dead(s: State, key: Key) {
    && key.run in s.runs && key.step in s.runs[key.run].steps && !Busy(s.items, key)
    && (s.runs[key.run].steps[key.step] == RUNNING || s.runs[key.run].steps[key.step] == SKIPPED)
  }

  lemma {:induction false} DeadIsLost(p: Plan, s: State, a: Action, key: Key)
    requires Dead(s, key)
    ensures Lost(p, s, key) && !IsUnstarted(s.runs, key)
    ensures Enabled(p, s, a) ==> !Repairs(p, s, a, key)
  {
    if Enabled(p, s, a) && (a.Begin? || a.Return? || a.Fail?) {
      assert s.items[a.id].ticket.key == key ==> Busy(s.items, key);
    }
    hide Busy, Covered, HandlerDue;
  }

  /** A lost step that has started is skipped or dead; without an awaiting ticket it is dead. */
  lemma {:induction false} DeadIf(p: Plan, s: State, key: Key)
    requires Lost(p, s, key) && !IsUnstarted(s.runs, key) && !Busy(s.items, key)
    ensures Dead(s, key)
  {
    hide Busy, Covered, HandlerDue;
  }

  lemma {:induction false} NotOffered(p: Plan, s: State, key: Key)
    requires key.run in s.runs && !IsUnstarted(s.runs, key)
    ensures key.step !in Ready(p, s, key.run)
  {
    ReadyKnown(p, s, key);
    hide Ready;
  }

  lemma {:induction false} DeadStep(p: Plan, max: nat, s: State, a: Action, key: Key)
    requires WellFormed(p) && Invariant(p, max, s) && Enabled(p, s, a) && Dead(s, key)
    ensures Dead(Apply(p, s, a), key)
  {
    DeadKnown(s, key);
    hide *;
    Unfold(p, max, s);
    DeadIsLost(p, s, a, key);
    LostIff(p, max, s, a, key);
    OpenExact(p, s, a, key);
    NeverBackStep(p, max, s, a);
    NeverBackKey(s.runs, Apply(p, s, a).runs, key);
    NewTickets(p, max, s, a, key);
    NotOffered(p, s, key);
    NotBusy(p, s, a, key);
    DeadIf(p, Apply(p, s, a), key);
  }

  lemma {:induction false} DeadKnown(s: State, key: Key)
    requires Dead(s, key)
    ensures key.run in s.runs && !Busy(s.items, key)
  {
    hide Busy;
  }

  lemma {:induction false} NotBusy(p: Plan, s: State, a: Action, key: Key)
    requires Enabled(p, s, a) && TicketsFrom(p, s, a, key) && !Busy(s.items, key) && key.step !in Ready(p, s, key.run)
    ensures !Busy(Apply(p, s, a).items, key)
  {
    hide Busy, Covered, Ready;
  }

  lemma {:induction false} NeverBackKey(before: Runs, after: Runs, key: Key)
    requires NeverBack(before, after) && key.run in before && !IsUnstarted(before, key)
    ensures !IsUnstarted(after, key)
  {
    hide IsUnstarted;
  }

  lemma {:induction false} DeadAt(p: Plan, max: nat, trace: seq<State>, acts: seq<Action>, n: nat, key: Key)
    requires WellFormed(p) && IsStretch(p, trace, acts) && Invariant(p, max, trace[0]) && n < |trace|
    requires Dead(trace[0], key)
    ensures Dead(trace[n], key)
  {
    hide Invariant, Apply, Enabled, WellFormed, Dead;
    if n == 0 {
    } else {
      DeadAt(p, max, trace, acts, n - 1, key);
      StretchInvariant(p, max, trace, acts, n - 1);
      assert trace[n - 1 + 1] == Apply(p, trace[n - 1], acts[n - 1]);
      DeadStep(p, max, trace[n - 1], acts[n - 1], key);
    }
  }

  /** A step that is shown running or skipped and that no ticket will report on stays lost in
      every continuation, so its run is never settled. */
  lemma {:induction false} DeadForever(p: Plan, max: nat, s: State, t: State, key: Key)
    requires WellFormed(p) && Reachable(p, max, s) && Dead(s, key) && Continues(p, s, t)
    ensures Dead(t, key) && Lost(p, t, key)
    ensures key.run in t.runs && !Settled(p, t.runs[key.run])
  {
    ReachableInvariant(p, max, s);
    var trace, acts :| IsStretch(p, trace, acts) && trace[0] == s && trace[|acts|] == t;
    DeadAt(p, max, trace, acts, |acts|, key);
    DeadIsLost(p, t, Execute(key.run), key);
    hide *;
    DeadUnsettled(p, t, key);
  }

  lemma {:induction false} DeadUnsettled(p: Plan, t: State, key: Key)
    requires Dead(t, key)
    ensures key.run in t.runs && !Settled(p, t.runs[key.run])
  {
    if Settled(p, t.runs[key.run]) {
      SettledNotReady(p, t.runs[key.run].steps, key.step);
    }
  }

  // ----- A ready step without an entry ------------------------------------------------

  /** Unstarted, and no ticket of it is on its way. */
  ghost predicate Unqueued(s: State, key: Key) {
    IsUnstarted(s.runs, key) && !Covered(s.items, key)
  }

  predicate HandlesRun(s: State, a: Action, r: RunId) {
    a.Handled? && a.id in s.items && s.items[a.id].ticket.key.run == r
  }

  /** Without a ticket on its way a step is not reported on. */
  lemma {:induction false} UnqueuedKept(p: Plan, max: nat, s: State, a: Action, key: Key)
    requires Shape(p, max, s) && UnderwayStarted(s.runs, s.items) && Enabled(p, s, a) && Unqueued(s, key)
    requires a != CancelRun(key.run)
    ensures IsUnstarted(Apply(p, s, a).runs, key)
  {
    StepOwner(p, max, s, a);
    KindOf(p, s, a);
    UnqueuedKnown(s, key);
    if RunOf(s, a) != key.run {
      hide *;
      AgreeStep(p, max, s, a, key.run);
      AgreeUnstarted(s, Apply(p, s, a), key);
    } else {
      RunOfIs(s, a);
      if a.Handled? {
        hide *;
        HandledDoes(p, s, a);
        HandledUnstarted(p, max, s, a.id, key);
      } else if IsReport(p, s, a) {
        ReportApart(p, s, a, key);
        hide *;
        ReportMoves(p, max, s, a);
        SameUnless(s.runs, Apply(p, s, a).runs, s.items[a.id].ticket.key, Reported(a), key);
      } else {
        hide IsUnstarted, DoCancelStep;
        if a.Wake? || a.CancelStep? {
          SameRuns(p, max, s, a);
        } else {
          QuietMoves(p, s, a);
        }
      }
    }
  }

  lemma {:induction false} UnqueuedKnown(s: State, key: Key)
    requires Unqueued(s, key)
    ensures key.run in s.runs && IsUnstarted(s.runs, key) && !Covered(s.items, key)
  {
    hide Covered;
  }

  lemma {:induction false} SameRuns(p: Plan, max: nat, s: State, a: Action)
    requires Shape(p, max, s) && Enabled(p, s, a) && (a.Wake? || a.CancelStep?)
    ensures Apply(p, s, a).runs == s.runs
  {
    hide Shape;
    if a.CancelStep? {
      CancelStepMoves(p, max, s, a.key);
      hide DoCancelStep;
    }
  }

  lemma {:induction false} AgreeUnstarted(s: State, t: State, key: Key)
    requires Agree(s, t, key.run) && IsUnstarted(s.runs, key)
    ensures IsUnstarted(t.runs, key)
  {
  }

  lemma {:induction false} SameUnless(before: Runs, after: Runs, own: Key, st: StepStatus, key: Key)
    requires IsUnstarted(before, key) && own != key && own.run == key.run && own.run in before && own.run in after
    requires after[own.run].steps == before[own.run].steps[own.step := st]
    ensures IsUnstarted(after, key)
  {
  }

  lemma {:induction false} ReportApart(p: Plan, s: State, a: Action, key: Key)
    requires UnderwayStarted(s.runs, s.items) && Enabled(p, s, a) && IsReport(p, s, a) && Unqueued(s, key)
    ensures a.id in s.items && s.items[a.id].ticket.key != key
    ensures a.Begin? || a.Return? || a.Fail? || a.Interrupt?
  {
    hide IsUnstarted;
    assert a.Begin? && s.items[a.id].ticket.key == key ==> Covered(s.items, key);
  }

  lemma {:induction false} HandledUnstarted(p: Plan, max: nat, s: State, id: nat, key: Key)
    requires Shape(p, max, s) && At(s, id, Reporting) && s.items[id].ticket.key.run == key.run && IsUnstarted(s.runs, key)
    ensures IsUnstarted(DoHandled(p, s, id).runs, key)
  {
    var run := key.run;
    HandledBegins(p, max, s, id);
    Below(p, max, s);
    hide Shape, Ready, Offer, IsUnstarted;
    OfferNeverBack(p, Move(s, id, Finished), run, true);
  }

  lemma {:induction false} UnqueuedStep(p: Plan, max: nat, s: State, a: Action, key: Key)
    requires WellFormed(p) && Invariant(p, max, s) && Enabled(p, s, a) && Unqueued(s, key)
    requires a != CancelRun(key.run) && !HandlesRun(s, a, key.run)
    ensures Unqueued(Apply(p, s, a), key)
  {
    hide *;
    Unfold(p, max, s);
    UnqueuedKnown(s, key);
    UnqueuedKept(p, max, s, a, key);
    NewTickets(p, max, s, a, key);
    NotCovered(p, s, a, key);
    UnqueuedIf(Apply(p, s, a), key);
  }

  lemma {:induction false} UnqueuedIf(s: State, key: Key)
    requires IsUnstarted(s.runs, key) && !Covered(s.items, key)
    ensures Unqueued(s, key)
  {
    hide Covered, IsUnstarted;
  }

  lemma {:induction false} NotCovered(p: Plan, s: State, a: Action, key: Key)
    requires Enabled(p, s, a) && TicketsFrom(p, s, a, key) && !Covered(s.items, key) && !HandlesRun(s, a, key.run)
    requires UnderwayStarted(s.runs, s.items) && IsUnstarted(s.runs, key)
    ensures !Covered(Apply(p, s, a).items, key)
  {
    hide Busy, Covered, Ready, IsUnstarted;
  }

  /** A ready step with no entry stays as it is until a handler of its run has run. */
  lemma {:induction false} NoEntryUntilHandled(p: Plan, max: nat, trace: seq<State>, acts: seq<Action>, n: nat,
            key: Key)
    requires WellFormed(p) && IsStretch(p, trace, acts) && Reachable(p, max, trace[0]) && n < |trace|
    requires Unqueued(trace[0], key)
    requires forall m :: 0 <= m < n ==> !HandlesRun(trace[m], acts[m], key.run) && acts[m] != CancelRun(key.run)
    ensures Unqueued(trace[n], key)
  {
    hide Invariant, Apply, Enabled, WellFormed, Unqueued, Reachable;
    if n == 0 {
    } else {
      NoEntryUntilHandled(p, max, trace, acts, n - 1, key);
      ReachableInvariant(p, max, trace[0]);
      StretchInvariant(p, max, trace, acts, n - 1);
      assert trace[n - 1 + 1] == Apply(p, trace[n - 1], acts[n - 1]);
      UnqueuedStep(p, max, trace[n - 1], acts[n - 1], key);
    }
  }

  // ----- Runs without a ticket that awaits --------------------------------------------

  /** No ticket of the run will report, and no handler of it is due. */
  ghost predicate Inactive(items: Items, r: RunId) {
    forall i :: i in items && items[i].ticket.key.run == r ==> !Awaits(items[i].place) && items[i].place != Reporting
  }

  lemma {:induction false} InactiveDoes(p: Plan, s: State, a: Action, key: Key)
    requires Enabled(p, s, a) && Inactive(s.items, key.run)
    ensures !Repairs(p, s, a, key)
    ensures a != CancelRun(key.run) ==> !Harms(p, s, a, key)
  {
    hide IsReady, Covered, CoveredBut, BusyBut, DueBut, HandlerDue;
  }

  lemma {:induction false} MovedInactive(before: Items, after: Items, id: nat, place: Place, r: RunId)
    requires Moved(before, after, id, place) && Inactive(before, r)
    requires before[id].ticket.key.run == r ==> !Awaits(place) && place != Reporting
    ensures Inactive(after, r)
  {
    hide Awaits;
  }

  lemma {:induction false} QuietInactive(p: Plan, s: State, a: Action, r: RunId)
    requires Enabled(p, s, a) && IsQuiet(p, s, a) && Inactive(s.items, r)
    ensures Inactive(Apply(p, s, a).items, r)
  {
    QuietKind(p, s, a);
    QuietMoves(p, s, a);
    QuietAwaits(p, s, a);
    QuietPlaces(p, s, a);
    hide Awaits, InHand, Apply, Enabled, IsQuiet, PlaceAfter, Moved;
    MovedInactive(s.items, Apply(p, s, a).items, a.id, PlaceAfter(s, a), r);
  }

  lemma {:induction false} ReportInactive(p: Plan, max: nat, s: State, a: Action, r: RunId)
    requires Shape(p, max, s) && Enabled(p, s, a) && IsReport(p, s, a) && Inactive(s.items, r)
    ensures Inactive(Apply(p, s, a).items, r)
  {
    assert s.items[a.id].ticket.key.run != r;
    ReportKind(p, s, a);
    hide *;
    ReportMoves(p, max, s, a);
    MovedInactive(s.items, Apply(p, s, a).items, a.id, ReportPlace(a), r);
  }

  lemma {:induction false} AgreeInactive(s: State, t: State, r: RunId)
    requires Agree(s, t, r) && Inactive(s.items, r)
    ensures Inactive(t.items, r)
  {
  }

  lemma {:induction false} CancelInactive(p: Plan, max: nat, s: State, a: Action, r: RunId)
    requires Shape(p, max, s) && Enabled(p, s, a) && (a.CancelStep? || a.CancelRun?) && Inactive(s.items, r)
    ensures Inactive(Apply(p, s, a).items, r)
  {
    hide Shape, Cancelled;
    if a.CancelStep? {
      CancelStepMoves(p, max, s, a.key);
      hide DoCancelStep;
      assert forall i :: i in Apply(p, s, a).items ==> i in Apply(p, s, a).items.Keys && i in s.items;
    }
  }

  lemma {:induction false} InactiveStep(p: Plan, max: nat, s: State, a: Action, r: RunId)
    requires Shape(p, max, s) && Enabled(p, s, a) && r in s.runs && Inactive(s.items, r)
    ensures Inactive(Apply(p, s, a).items, r)
  {
    StepOwner(p, max, s, a);
    KindOf(p, s, a);
    if RunOf(s, a) != r {
      hide *;
      AgreeStep(p, max, s, a, r);
      AgreeInactive(s, Apply(p, s, a), r);
    } else {
      RunOfIs(s, a);
      OnlyQuiet(p, s, a, r);
      hide *;
      if a.CancelStep? || a.CancelRun? {
        CancelInactive(p, max, s, a, r);
      } else if IsQuiet(p, s, a) {
        QuietInactive(p, s, a, r);
      } else {
        ReportInactive(p, max, s, a, r);
      }
    }
  }

  lemma {:induction false} OnlyQuiet(p: Plan, s: State, a: Action, r: RunId)
    requires Enabled(p, s, a) && Inactive(s.items, r) && RunOf(s, a) == r && r in s.runs
    ensures !a.Handled? && !a.Wake? && !a.Execute?
  {
  }

  /** Nothing happens to the steps of an inactive run any more, but that it may be withdrawn. */
  lemma {:induction false} InactiveAt(p: Plan, max: nat, trace: seq<State>, acts: seq<Action>, n: nat, key: Key)
    requires WellFormed(p) && IsStretch(p, trace, acts) && Invariant(p, max, trace[0]) && n < |trace|
    requires key.run in trace[0].runs && Inactive(trace[0].items, key.run)
    ensures key.run in trace[n].runs && Inactive(trace[n].items, key.run)
    ensures Lost(p, trace[0], key) ==> Lost(p, trace[n], key)
    ensures !Withdrawn(trace[n].log, key.run) ==> !Withdrawn(trace[0].log, key.run)
    ensures Lost(p, trace[n], key) && !Withdrawn(trace[n].log, key.run) ==> Lost(p, trace[0], key)
  {
    hide Invariant, Apply, Enabled, WellFormed, Lost, Inactive, Withdrawn, Shape;
    if n == 0 {
    } else {
      InactiveAt(p, max, trace, acts, n - 1, key);
      assert trace[n - 1 + 1] == Apply(p, trace[n - 1], acts[n - 1]) && Enabled(p, trace[n - 1], acts[n - 1]);
      StretchInvariant(p, max, trace, acts, n - 1);
      Unfold(p, max, trace[n - 1]);
      InactiveStep(p, max, trace[n - 1], acts[n - 1], key.run);
      InactiveDoes(p, trace[n - 1], acts[n - 1], key);
      ExactAt(p, max, trace, acts, n - 1, key);
      LogKept(p, trace[n - 1], acts[n - 1]);
      WithdrawnStays(trace[n - 1].log, trace[n].log, key.run);
      WithdrawnBy(p, trace[n - 1], acts[n - 1], key.run);
    }
  }

  lemma {:induction false} WithdrawnStays(log: seq<Event>, later: seq<Event>, r: RunId)
    requires log <= later
    ensures Withdrawn(log, r) ==> Withdrawn(later, r)
  {
    if i :| 0 <= i < |log| && log[i] == RunWithdrawn(r) {
      assert later[i] == RunWithdrawn(r);
    }
  }

  lemma {:induction false} WithdrawnBy(p: Plan, s: State, a: Action, r: RunId)
    requires Enabled(p, s, a)
    ensures a == CancelRun(r) ==> Withdrawn(Apply(p, s, a).log, r)
  {
    if a == CancelRun(r) {
      assert Apply(p, s, a).log[|s.log|] == RunWithdrawn(r);
    }
  }

  /** Once no ticket of a run awaits and no handler of it is due, its outcome is fixed: in every
      continuation that comes to rest it is settled exactly if no step of it was lost by then and
      it is not withdrawn. */
  lemma {:induction false} InactiveOutcome(p: Plan, max: nat, s: State, t: State, r: RunId)
    requires WellFormed(p) && Acyclic(p.deps) && p.deps != map[] && Reachable(p, max, s) && Continues(p, s, t)
    requires r in s.runs && Inactive(s.items, r) && Quiescent(t)
    ensures r in t.runs
    ensures Settled(p, t.runs[r]) <==> !Withdrawn(t.log, r) && forall k :: !Lost(p, s, Key(r, k))
  {
    ReachableInvariant(p, max, s);
    var trace, acts :| IsStretch(p, trace, acts) && trace[0] == s && trace[|acts|] == t;
    hide *;
    StretchLength(p, trace, acts);
    StretchInvariant(p, max, trace, acts, |acts|);
    RunStays(p, trace, acts, 0, |acts|, r);
    forall k
      ensures Lost(p, s, Key(r, k)) ==> Lost(p, t, Key(r, k))
      ensures Lost(p, t, Key(r, k)) && !Withdrawn(t.log, r) ==> Lost(p, s, Key(r, k))
    {
      InactiveAt(p, max, trace, acts, |acts|, Key(r, k));
    }
    EndOfRun(p, max, t, r);
  }

  lemma {:induction false} StretchLength(p: Plan, trace: seq<State>, acts: seq<Action>)
    requires IsStretch(p, trace, acts)
    ensures |trace| == |acts| + 1
  {
    hide Enabled, Apply;
  }
}
