/** When a step is lost: what a run still waits for, and what in the scheduler will get to it. */
module SchedulerProgress {
  import opened Workflow
  import opened DependencyEngine
  import opened WorkflowRuns
  import opened Backoff
  import opened SchedulerModel
  import opened SchedulerSafety
  import opened SchedulerWork

  /** On its way to being recorded RUNNING. */
  predicate InHand(place: Place) {
    place == Queued || place == Held || place == Launched
  }

  /** Will still record a result, or be queued again. */
  predicate Awaits(place: Place) {
    InHand(place) || place == Announcing || place == Working || place == Sleeping
  }

  ghost predicate Covered(items: Items, key: Key) {
    exists i :: i in items && items[i].ticket.key == key && InHand(items[i].place)
  }

  ghost predicate Busy(items: Items, key: Key) {
    exists i :: i in items && items[i].ticket.key == key && Awaits(items[i].place)
  }

  /** A completion whose handler has yet to offer the run's ready steps. */
  ghost predicate HandlerDue(items: Items, r: RunId) {
    exists i :: i in items && items[i].ticket.key.run == r && items[i].place == Reporting
  }

  /** Nothing in the scheduler will get to the step by itself: it was skipped, or is shown
      running and no ticket will report on it, or is ready, no ticket of it is on its way and no
      handler is due to offer it. */
  ghost predicate LostIn(p: Plan, steps: Steps, items: Items, key: Key) {
    && key.step in steps
    && (|| steps[key.step] == SKIPPED
        || (steps[key.step] == RUNNING && !Busy(items, key))
        || (IsReady(p.deps, steps, key.step) && !Covered(items, key) && !HandlerDue(items, key.run)))
  }

  type Steps = map<StepId, StepStatus>

  ghost predicate Lost(p: Plan, s: State, key: Key) {
    key.run in s.runs && LostIn(p, s.runs[key.run].steps, s.items, key)
  }

  ghost predicate NothingLost(p: Plan, s: State, r: RunId)
    requires r in s.runs
  {
    && (forall k :: !Lost(p, s, Key(r, k)))
    && (p.deps != map[] ==> s.runs[r].status == Derived(s.runs[r].steps))
  }

  // ----- The run's status -------------------------------------------------------------

  predicate Withdrawn(log: seq<Event>, r: RunId) {
    RunWithdrawn(r) in log
  }

  /** A run is cancelled once it was withdrawn, and else has the status its steps stand for. */
  ghost predicate StatusSound(p: Plan, runs: Runs, log: seq<Event>) {
    && (forall r :: r in runs && p.deps != map[] ==>
          runs[r].status == if Withdrawn(log, r) then RunCancelled else Derived(runs[r].steps))
    && (forall r :: Withdrawn(log, r) ==> r in runs)
  }

  ghost predicate SameWithdrawn(log: seq<Event>, later: seq<Event>) {
    forall r :: Withdrawn(later, r) <==> Withdrawn(log, r)
  }

  lemma {:induction false} NotWithdrawn(p: Plan, s: State, a: Action)
    requires Enabled(p, s, a) && !a.CancelRun?
    ensures SameWithdrawn(s.log, Apply(p, s, a).log)
  {
    hide WithStep;
    if a.Execute? || a.Handled? {
      hide Apply;
      OfferKept(p, s, a);
    }
  }

  lemma {:induction false} NeverCancelled(steps: Steps)
    ensures Derived(steps) != RunCancelled
  {
  }

  lemma {:induction false} RecordSound(p: Plan, s: State, log: seq<Event>, key: Key, st: StepStatus)
    requires StatusSound(p, s.runs, s.log) && SameWithdrawn(s.log, log)
    ensures StatusSound(p, Record(s, key, st).runs, log)
  {
    hide Derived, Withdrawn;
    if key.run in s.runs {
      NeverCancelled(s.runs[key.run].steps);
    }
  }

  lemma {:induction false} OfferSound(p: Plan, s: State, run: RunId, ks: seq<StepId>, mark: bool)
    requires StatusSound(p, s.runs, s.log)
    ensures StatusSound(p, Offer(s, run, ks, |ks|, mark).runs, s.log)
  {
    OfferStatuses(s, run, ks, |ks|, mark);
    hide Offer, Derived, Withdrawn;
    if run in s.runs {
      NeverCancelled(s.runs[run].steps);
    }
  }

  lemma {:induction false} StartedSound(p: Plan, s: State, run: RunId)
    requires StatusSound(p, s.runs, s.log) && run !in s.runs
    ensures StatusSound(p, s.runs[run := Started(p.deps)], s.log)
  {
    if p.deps != map[] {
      var v :| v in p.deps;
      assert Started(p.deps).steps[v] != COMPLETED;
    }
    hide Withdrawn;
  }

  lemma {:induction false} CancelSound(p: Plan, s: State, run: RunId)
    requires StatusSound(p, s.runs, s.log) && run in s.runs
    ensures StatusSound(p, DoCancelRun(s, run).runs, DoCancelRun(s, run).log)
  {
    var log := s.log + [RunWithdrawn(run)];
    forall r
      ensures Withdrawn(log, r) <==> Withdrawn(s.log, r) || r == run
    {
      if r == run {
        assert log[|s.log|] == RunWithdrawn(r);
      }
    }
    hide Derived, Withdrawn;
  }

  lemma {:induction false} OfferedSound(p: Plan, s: State, a: Action)
    requires StatusSound(p, s.runs, s.log) && Enabled(p, s, a) && (a.Execute? || a.Handled?)
    ensures StatusSound(p, Apply(p, s, a).runs, Apply(p, s, a).log)
  {
    OfferKept(p, s, a);
    hide StatusSound, Offer, Ready, Started;
    if a.Execute? {
      var started := s.(runs := s.runs[a.run := Started(p.deps)]);
      StartedSound(p, s, a.run);
      OfferSound(p, started, a.run, Ready(p, started, a.run), false);
    } else {
      var run := s.items[a.id].ticket.key.run;
      OfferSound(p, Move(s, a.id, Finished), run, Ready(p, s, run), true);
    }
  }

  lemma {:induction false} StatusSoundStep(p: Plan, s: State, a: Action)
    requires StatusSound(p, s.runs, s.log) && Enabled(p, s, a)
    ensures StatusSound(p, Apply(p, s, a).runs, Apply(p, s, a).log)
  {
    if a.CancelRun? {
      CancelSound(p, s, a.run);
    } else if a.Execute? || a.Handled? {
      hide Apply;
      OfferedSound(p, s, a);
    } else {
      NotWithdrawn(p, s, a);
      hide StatusSound, WithStep, SameWithdrawn;
      SameSound(p, s.runs, s.log, Apply(p, s, a).log);
      match a
      case Begin(id, agentFound) =>
        RecordSound(p, s, Apply(p, s, a).log, s.items[id].ticket.key, if agentFound then RUNNING else FAILED);
      case Return(id) => RecordSound(p, s, Apply(p, s, a).log, s.items[id].ticket.key, COMPLETED);
      case Fail(id) => RecordSound(p, s, Apply(p, s, a).log, s.items[id].ticket.key, FAILED);
      case Interrupt(id) => RecordSound(p, s, Apply(p, s, a).log, s.items[id].ticket.key, SKIPPED);
      case _ =>
    }
  }

  lemma {:induction false} SameSound(p: Plan, runs: Runs, log: seq<Event>, later: seq<Event>)
    requires StatusSound(p, runs, log) && SameWithdrawn(log, later)
    ensures StatusSound(p, runs, later)
  {
    hide Derived, Withdrawn;
  }

  // ----- One ticket moves -------------------------------------------------------------

  ghost predicate CoveredBut(items: Items, id: nat, key: Key) {
    exists i :: i in items && i != id && items[i].ticket.key == key && InHand(items[i].place)
  }

  ghost predicate BusyBut(items: Items, id: nat, key: Key) {
    exists i :: i in items && i != id && items[i].ticket.key == key && Awaits(items[i].place)
  }

  ghost predicate DueBut(items: Items, id: nat, r: RunId) {
    exists i :: i in items && i != id && items[i].ticket.key.run == r && items[i].place == Reporting
  }

  /** Ticket `id` is at `place` afterwards; at the end it may also have left. */
  ghost predicate Moved(before: Items, after: Items, id: nat, place: Place) {
    && id in before
    && (forall i :: i != id ==> (i in after <==> i in before))
    && (forall i :: i != id && i in after ==> after[i] == before[i])
    && (id in after ==> after[id].place == place && after[id].ticket.key == before[id].ticket.key)
    && (id !in after ==> place == Finished)
  }

  lemma {:induction false} SelfCover(items: Items, id: nat, key: Key)
    requires id in items
    ensures Covered(items, key) <==> CoveredBut(items, id, key) || (items[id].ticket.key == key && InHand(items[id].place))
    ensures Busy(items, key) <==> BusyBut(items, id, key) || (items[id].ticket.key == key && Awaits(items[id].place))
  {
  }

  lemma {:induction false} SelfDue(items: Items, id: nat, r: RunId)
    requires id in items
    ensures HandlerDue(items, r) <==> DueBut(items, id, r) || (items[id].ticket.key.run == r && items[id].place == Reporting)
  {
  }

  lemma {:induction false} MovedCover(before: Items, after: Items, id: nat, place: Place, key: Key)
    requires Moved(before, after, id, place)
    ensures Covered(after, key) <==> CoveredBut(before, id, key) || (before[id].ticket.key == key && InHand(place))
  {
    if i :| i in after && after[i].ticket.key == key && InHand(after[i].place) {
      assert i != id ==> i in before;
    }
    if i :| i in before && i != id && before[i].ticket.key == key && InHand(before[i].place) {
      assert i in after;
    }
    if before[id].ticket.key == key && InHand(place) {
      assert id in after;
    }
  }

  lemma {:induction false} MovedBusy(before: Items, after: Items, id: nat, place: Place, key: Key)
    requires Moved(before, after, id, place)
    ensures Busy(after, key) <==> BusyBut(before, id, key) || (before[id].ticket.key == key && Awaits(place))
  {
    if i :| i in after && after[i].ticket.key == key && Awaits(after[i].place) {
      assert i != id ==> i in before;
    }
    if i :| i in before && i != id && before[i].ticket.key == key && Awaits(before[i].place) {
      assert i in after;
    }
    if before[id].ticket.key == key && Awaits(place) {
      assert id in after;
    }
  }

  lemma {:induction false} MovedDue(before: Items, after: Items, id: nat, place: Place, r: RunId)
    requires Moved(before, after, id, place)
    ensures HandlerDue(after, r) <==> DueBut(before, id, r) || (before[id].ticket.key.run == r && place == Reporting)
  {
    if i :| i in after && after[i].ticket.key.run == r && after[i].place == Reporting {
      assert i != id ==> i in before;
    }
    if i :| i in before && i != id && before[i].ticket.key.run == r && before[i].place == Reporting {
      assert i in after;
    }
    if before[id].ticket.key.run == r && place == Reporting {
      assert id in after;
    }
  }

  /** The ticket is the last thing in the scheduler that its step depends on: the step is ready,
      nothing else of it is on its way and no handler is due; or the step is shown running and
      nothing else of it will report. */
  ghost predicate LastHope(p: Plan, steps: Steps, items: Items, id: nat)
    requires id in items
  {
    var key, place := items[id].ticket.key, items[id].place;
    || (InHand(place) && IsReady(p.deps, steps, key.step) && !CoveredBut(items, id, key) && !HandlerDue(items, key.run))
    || (Awaits(place) && key.step in steps && steps[key.step] == RUNNING && !BusyBut(items, id, key))
  }

  /** A ticket that moves without a status being recorded concerns its own step alone, and that
      only if it leaves as the last hope. */
  lemma {:induction false} QuietLost(p: Plan, steps: Steps, before: Items, after: Items, id: nat, place: Place,
            key: Key)
    requires Moved(before, after, id, place) && before[id].place != Reporting && place != Reporting
    ensures before[id].ticket.key != key || (InHand(place) == InHand(before[id].place) && Awaits(place) == Awaits(before[id].place)) ==>
              (LostIn(p, steps, after, key) <==> LostIn(p, steps, before, key))
    ensures before[id].ticket.key == key && place == Finished ==>
              (LostIn(p, steps, after, key) <==> LostIn(p, steps, before, key) || LastHope(p, steps, before, id))
  {
    SelfCover(before, id, key);
    SelfDue(before, id, key.run);
    MovedCover(before, after, id, place, key);
    MovedBusy(before, after, id, place, key);
    MovedDue(before, after, id, place, key.run);
    hide Covered, CoveredBut, Busy, BusyBut, HandlerDue, DueBut, IsReady, Moved;
  }

  /** A ticket that records a started status leaves its own step lost exactly if it is skipped. */
  lemma {:induction false} OwnLost(p: Plan, steps: Steps, before: Items, after: Items, id: nat, place: Place,
            st: StepStatus)
    requires Moved(before, after, id, place) && !Unstarted(st) && before[id].ticket.key.step in steps
    requires st == RUNNING ==> Awaits(place)
    ensures var key := before[id].ticket.key; LostIn(p, steps[key.step := st], after, key) <==> st == SKIPPED
  {
    var key := before[id].ticket.key;
    MovedBusy(before, after, id, place, key);
    hide Covered, Busy, BusyBut, HandlerDue, Moved;
  }

  /** For another step of the run what counts is whether it waited for the one reported on, and
      whether the handler that was due goes away. */
  lemma {:induction false} OtherLost(p: Plan, steps: Steps, before: Items, after: Items, id: nat, place: Place,
            st: StepStatus, key: Key)
    requires Moved(before, after, id, place) && before[id].ticket.key != key && before[id].ticket.key.run == key.run
    requires before[id].ticket.key.step in steps && (st == COMPLETED ==> place == Reporting)
    ensures var own := before[id].ticket.key;
            LostIn(p, steps[own.step := st], after, key) <==>
            && key.step in steps
            && (|| steps[key.step] == SKIPPED
                || (steps[key.step] == RUNNING && !Busy(before, key))
                || (IsReady(p.deps, steps, key.step) && own.step !in p.deps[key.step] && !Covered(before, key)
                    && !DueBut(before, id, key.run) && place != Reporting))
  {
    var own := before[id].ticket.key;
    SelfCover(before, id, key);
    MovedCover(before, after, id, place, key);
    MovedBusy(before, after, id, place, key);
    MovedDue(before, after, id, place, key.run);
    hide Covered, CoveredBut, Busy, BusyBut, HandlerDue, DueBut, Moved;
    assert own.step != key.step;
  }

  // ----- What loses a step and what repairs it ----------------------------------------

  /** A ticket of the step reports something else: a second execution of it begins or fails for
      good, or a cancellation reaches it inside the agent call or the success report. */
  ghost predicate TakesBack(p: Plan, s: State, a: Action, key: Key)
    requires Enabled(p, s, a)
  {
    match a
    case Begin(id, _) => s.items[id].ticket.key == key
    case Fail(id) => s.items[id].ticket.key == key && s.items[id].ticket.retryCount >= MaxRetries(p, key.step)
    case Interrupt(id) =>
      s.items[id].ticket.key == key && (s.items[id].place == Working || s.items[id].place == Reporting)
    case _ => false
  }

  /** A ticket of the step begins, succeeds or fails for good. */
  ghost predicate Reports(p: Plan, s: State, a: Action, key: Key)
    requires Enabled(p, s, a)
  {
    match a
    case Begin(id, _) => s.items[id].ticket.key == key
    case Return(id) => s.items[id].ticket.key == key
    case Fail(id) => s.items[id].ticket.key == key && s.items[id].ticket.retryCount >= MaxRetries(p, key.step)
    case _ => false
  }

  /** The transitions that lose a step: the run is cancelled before it starts; a tombstone or an
      interrupt takes its last hope away, or interrupts it inside the agent call or the success
      report; or the last handler that was due to offer it is interrupted. */
  ghost predicate Harms(p: Plan, s: State, a: Action, key: Key)
    requires Enabled(p, s, a)
  {
    && key.run in s.runs && key.step in s.runs[key.run].steps
    && var steps := s.runs[key.run].steps;
       match a
       case CancelRun(run) => run == key.run && Unstarted(steps[key.step])
       case Dequeue(id) => s.items[id].ticket.key == key && key in s.tombstones && LastHope(p, steps, s.items, id)
       case Interrupt(id) =>
         var own, place := s.items[id].ticket.key, s.items[id].place;
         if own == key then place == Working || place == Reporting || LastHope(p, steps, s.items, id)
         else
           && place == Reporting && own.run == key.run && IsReady(p.deps, steps, key.step)
           && own.step !in p.deps[key.step] && !Covered(s.items, key) && !DueBut(s.items, id, key.run)
       case _ => false
  }

  /** The transitions that repair a lost step: another ticket of a skipped one reports; a task of
      the run succeeds, so that its handler will offer a ready one; or a step that a ready one
      waits for is taken back. A lost running step is never repaired. */
  ghost predicate Repairs(p: Plan, s: State, a: Action, key: Key)
    requires Enabled(p, s, a)
  {
    && key.run in s.runs && key.step in s.runs[key.run].steps
    && var steps := s.runs[key.run].steps;
       if steps[key.step] == SKIPPED then Reports(p, s, a, key)
       else
         && IsReady(p.deps, steps, key.step)
         && ((a.Return? && s.items[a.id].ticket.key.run == key.run)
             || exists d :: d in p.deps[key.step] && TakesBack(p, s, a, Key(key.run, d)))
  }

  /** What one transition does to one step. */
  ghost predicate ExactStep(p: Plan, s: State, a: Action, key: Key)
    requires Enabled(p, s, a)
  {
    var t := Apply(p, s, a);
    && (!Lost(p, s, key) ==> (Lost(p, t, key) <==> Harms(p, s, a, key)))
    && (Lost(p, s, key) ==> (!Lost(p, t, key) <==> Repairs(p, s, a, key)))
    && (Harms(p, s, a, key) ==> Lost(p, t, key))
  }

  // ----- Another run's transition -----------------------------------------------------

  /** The two states agree on everything that concerns run `r`. */
  ghost predicate Agree(s: State, t: State, r: RunId) {
    && r in s.runs && r in t.runs && t.runs[r] == s.runs[r]
    && (forall i :: i in s.items && s.items[i].ticket.key.run == r ==> i in t.items && t.items[i] == s.items[i])
    && (forall i :: i in t.items && t.items[i].ticket.key.run == r ==> i in s.items && t.items[i] == s.items[i])
  }

  lemma {:induction false} AgreeLost(p: Plan, s: State, t: State, key: Key)
    requires Agree(s, t, key.run)
    ensures Lost(p, t, key) <==> Lost(p, s, key)
  {
    assert Covered(s.items, key) <==> Covered(t.items, key);
    assert Busy(s.items, key) <==> Busy(t.items, key);
    assert HandlerDue(s.items, key.run) <==> HandlerDue(t.items, key.run);
    hide Covered, Busy, HandlerDue, IsReady;
  }

  /** Which run a transition works for. */
  function RunOf(s: State, a: Action): RunId
    requires a.Execute? || a.CancelStep? || a.CancelRun? || a.id in s.items
  {
    if a.Execute? || a.CancelRun? then a.run
    else if a.CancelStep? then a.key.run
    else s.items[a.id].ticket.key.run
  }

  lemma {:induction false} AgreeTask(p: Plan, s: State, a: Action, r: RunId)
    requires Enabled(p, s, a) && MovesTask(a) && r in s.runs && RunOf(s, a) != r
    ensures Agree(s, Apply(p, s, a), r)
  {
    TaskAdvances(p, s, a);
    hide Apply, WithStep;
  }

  lemma {:induction false} AgreeQueue(p: Plan, max: nat, s: State, a: Action, r: RunId)
    requires Shape(p, max, s) && Enabled(p, s, a) && r in s.runs && RunOf(s, a) != r
    requires a.Dequeue? || a.Acquire? || a.Release? || a.Wake?
    ensures Agree(s, Apply(p, s, a), r)
  {
    hide Shape;
    Below(p, max, s);
  }

  lemma {:induction false} OfferAgrees(s: State, base: State, run: RunId, ks: seq<StepId>, mark: bool, r: RunId)
    requires Agree(s, base, r) && run != r && forall i :: i in base.items ==> i < base.next
    ensures Agree(s, Offer(base, run, ks, |ks|, mark), r)
  {
    OfferItems(base, run, ks, |ks|, mark);
    OfferStatuses(base, run, ks, |ks|, mark);
    hide Offer, Marked;
  }

  lemma {:induction false} AgreeOffer(p: Plan, max: nat, s: State, a: Action, r: RunId)
    requires Shape(p, max, s) && Enabled(p, s, a) && r in s.runs && RunOf(s, a) != r
    requires a.Execute? || a.Handled?
    ensures Agree(s, Apply(p, s, a), r)
  {
    hide Shape, Ready, Offer, Started;
    Below(p, max, s);
    var run := RunOf(s, a);
    var base := if a.Execute? then s.(runs := s.runs[run := Started(p.deps)]) else Move(s, a.id, Finished);
    assert Agree(s, base, r);
    hide Agree;
    OfferAgrees(s, base, run, Ready(p, if a.Execute? then base else s, run), a.Handled?, r);
  }

  lemma {:induction false} AgreeCancel(p: Plan, max: nat, s: State, a: Action, r: RunId)
    requires Shape(p, max, s) && Enabled(p, s, a) && r in s.runs && RunOf(s, a) != r
    requires a.CancelStep? || a.CancelRun?
    ensures Agree(s, Apply(p, s, a), r)
  {
    hide Shape, Cancelled;
    if a.CancelStep? && a.key in s.active {
      ActiveTask(p, max, s, a.key);
    }
  }

  lemma {:induction false} AgreeStep(p: Plan, max: nat, s: State, a: Action, r: RunId)
    requires Shape(p, max, s) && Enabled(p, s, a) && r in s.runs && RunOf(s, a) != r
    ensures Agree(s, Apply(p, s, a), r)
  {
    hide Shape, Apply, Agree;
    if MovesTask(a) {
      AgreeTask(p, s, a, r);
    } else if a.CancelStep? || a.CancelRun? {
      AgreeCancel(p, max, s, a, r);
    } else if a.Execute? || a.Handled? {
      AgreeOffer(p, max, s, a, r);
    } else {
      AgreeQueue(p, max, s, a, r);
    }
  }

  lemma {:induction false} StepKnown(p: Plan, max: nat, s: State, id: nat)
    requires Shape(p, max, s) && id in s.items
    ensures s.items[id].ticket.key.run in s.runs && s.next !in s.items
    ensures s.items[id].ticket.key.step in s.runs[s.items[id].ticket.key.run].steps
  {
    KnownItem(p, max, s, id);
    Below(p, max, s);
    hide ItemsOk, OneHeld, ActiveOk, PermitsOk;
  }

  lemma {:induction false} NoItemsYet(p: Plan, max: nat, s: State, r: RunId)
    requires Shape(p, max, s) && r !in s.runs
    ensures forall i :: i in s.items ==> s.items[i].ticket.key.run != r
  {
    hide RunsOk, OneHeld, ActiveOk, PermitsOk;
  }

  lemma {:induction false} OtherRunExact(p: Plan, max: nat, s: State, a: Action, key: Key)
    requires Shape(p, max, s) && Enabled(p, s, a) && key.run in s.runs && RunOf(s, a) != key.run
    ensures ExactStep(p, s, a, key)
  {
    hide *;
    AgreeStep(p, max, s, a, key.run);
    AgreeLost(p, s, Apply(p, s, a), key);
    NothingDone(p, s, a, key);
    ExactIf(p, s, a, key);
  }

  lemma {:induction false} NothingDone(p: Plan, s: State, a: Action, key: Key)
    requires Enabled(p, s, a) && RunOf(s, a) != key.run
    ensures !Harms(p, s, a, key) && !Repairs(p, s, a, key)
  {
    hide IsReady, LastHope;
  }

  lemma {:induction false} ExactIf(p: Plan, s: State, a: Action, key: Key)
    requires Enabled(p, s, a)
    requires !Lost(p, s, key) ==> (Lost(p, Apply(p, s, a), key) <==> Harms(p, s, a, key))
    requires Lost(p, s, key) ==> (!Lost(p, Apply(p, s, a), key) <==> Repairs(p, s, a, key))
    requires Harms(p, s, a, key) ==> Lost(p, Apply(p, s, a), key)
    ensures ExactStep(p, s, a, key)
  {
    hide Lost, Harms, Repairs;
  }

  // ----- The run's own transitions ----------------------------------------------------

  /** Asking a task to stop changes nothing yet. */
  lemma {:induction false} SamePlaces(p: Plan, s: State, t: State, key: Key)
    requires t.runs == s.runs && t.items.Keys == s.items.Keys
    requires forall i :: i in s.items ==> t.items[i].ticket == s.items[i].ticket && t.items[i].place == s.items[i].place
    ensures Lost(p, t, key) <==> Lost(p, s, key)
  {
    hide IsReady;
    forall i
      ensures i in s.items <==> i in t.items
    {
      assert i in s.items.Keys <==> i in t.items.Keys;
    }
    assert Covered(s.items, key) <==> Covered(t.items, key);
    assert Busy(s.items, key) <==> Busy(t.items, key);
    assert HandlerDue(s.items, key.run) <==> HandlerDue(t.items, key.run);
    hide Covered, Busy, HandlerDue;
  }

  lemma {:induction false} CancelStepExact(p: Plan, max: nat, s: State, a: Action, key: Key)
    requires Shape(p, max, s) && Enabled(p, s, a) && a.CancelStep?
    ensures ExactStep(p, s, a, key)
  {
    CancelStepMoves(p, max, s, a.key);
    hide Shape, Lost, DoCancelStep;
    SamePlaces(p, s, DoCancelStep(s, a.key), key);
  }

  lemma {:induction false} CancelRunExact(p: Plan, s: State, a: Action, key: Key)
    requires Enabled(p, s, a) && a.CancelRun? && a.run == key.run
    ensures ExactStep(p, s, a, key)
  {
    hide Covered, Busy, HandlerDue;
    assert Cancelled(s.runs[key.run]).steps.Keys == s.runs[key.run].steps.Keys;
  }

  /** A transition of ticket `id` that records no status. */
  predicate IsQuiet(p: Plan, s: State, a: Action)
    requires Enabled(p, s, a)
  {
    || a.Dequeue? || a.Acquire? || a.Announced? || a.Published? || a.Release?
    || (a.Fail? && s.items[a.id].ticket.retryCount < MaxRetries(p, s.items[a.id].ticket.key.step))
    || (a.Interrupt? && s.items[a.id].place != Working && s.items[a.id].place != Reporting)
  }

  function PlaceAfter(s: State, a: Action): Place
    requires a.Dequeue? || a.Acquire? || a.Announced? || a.Published? || a.Release? || a.Fail? || a.Interrupt?
    requires a.id in s.items
  {
    match a
    case Dequeue(id) => if s.items[id].ticket.key in s.tombstones then Finished else Held
    case Acquire(_) => Launched
    case Announced(_) => Working
    case Fail(_) => Sleeping
    case _ => Finished
  }

  lemma {:induction false} QuietMoves(p: Plan, s: State, a: Action)
    requires Enabled(p, s, a) && IsQuiet(p, s, a)
    ensures a.id in s.items && s.items[a.id].place != Reporting && Apply(p, s, a).runs == s.runs
    ensures Moved(s.items, Apply(p, s, a).items, a.id, PlaceAfter(s, a))
  {
    hide WithStep;
  }

  lemma {:induction false} QuietExact(p: Plan, s: State, a: Action, key: Key)
    requires Enabled(p, s, a) && IsQuiet(p, s, a) && key.run in s.runs
    ensures ExactStep(p, s, a, key)
  {
    var place := PlaceAfter(s, a);
    QuietMoves(p, s, a);
    QuietPlaces(p, s, a);
    hide Apply, IsQuiet, PlaceAfter;
    QuietLost(p, s.runs[key.run].steps, s.items, Apply(p, s, a).items, a.id, place, key);
    hide LostIn, Moved, Enabled;
    QuietHarm(p, s, a, key);
    QuietRepair(p, s, a, key);
    hide Harms, Repairs, LastHope;
  }

  lemma {:induction false} QuietPlaces(p: Plan, s: State, a: Action)
    requires Enabled(p, s, a) && IsQuiet(p, s, a)
    ensures a.id in s.items
    ensures PlaceAfter(s, a) == Finished
            || (InHand(PlaceAfter(s, a)) == InHand(s.items[a.id].place) && Awaits(PlaceAfter(s, a)) == Awaits(s.items[a.id].place))
    ensures PlaceAfter(s, a) != Reporting
    ensures PlaceAfter(s, a) == Finished && !a.Dequeue? && !a.Interrupt? ==> !Awaits(s.items[a.id].place)
  {
  }

  lemma {:induction false} QuietHarm(p: Plan, s: State, a: Action, key: Key)
    requires Enabled(p, s, a) && IsQuiet(p, s, a) && key.run in s.runs
    ensures a.id in s.items
    ensures Harms(p, s, a, key) <==>
            && s.items[a.id].ticket.key == key && PlaceAfter(s, a) == Finished
            && LastHope(p, s.runs[key.run].steps, s.items, a.id)
  {
    hide Covered, CoveredBut, BusyBut, HandlerDue, DueBut;
  }

  lemma {:induction false} QuietRepair(p: Plan, s: State, a: Action, key: Key)
    requires Enabled(p, s, a) && IsQuiet(p, s, a)
    ensures !Repairs(p, s, a, key)
  {
    hide IsReady;
  }

  /** A transition that records a status for the step of ticket `id`. */
  predicate IsReport(p: Plan, s: State, a: Action)
    requires Enabled(p, s, a)
  {
    || a.Begin? || a.Return?
    || (a.Fail? && s.items[a.id].ticket.retryCount >= MaxRetries(p, s.items[a.id].ticket.key.step))
    || (a.Interrupt? && (s.items[a.id].place == Working || s.items[a.id].place == Reporting))
  }

  function Reported(a: Action): StepStatus
    requires a.Begin? || a.Return? || a.Fail? || a.Interrupt?
  {
    match a
    case Begin(_, agentFound) => if agentFound then RUNNING else FAILED
    case Return(_) => COMPLETED
    case Fail(_) => FAILED
    case _ => SKIPPED
  }

  function ReportPlace(a: Action): Place
    requires a.Begin? || a.Return? || a.Fail? || a.Interrupt?
  {
    match a
    case Begin(_, agentFound) => if agentFound then Announcing else Failing
    case Return(_) => Reporting
    case Fail(_) => Failing
    case _ => Finished
  }

  lemma {:induction false} ReportIs(p: Plan, s: State, a: Action)
    requires Enabled(p, s, a) && IsReport(p, s, a)
    ensures a.id in s.items && a.id in Apply(p, s, a).items
    ensures Apply(p, s, a).items == s.items[a.id := s.items[a.id].(place := ReportPlace(a))]
    ensures Apply(p, s, a).runs == Record(s, s.items[a.id].ticket.key, Reported(a)).runs
  {
    hide WithStep, Delay;
  }

  lemma {:induction false} RecordSteps(s: State, key: Key, st: StepStatus)
    requires key.run in s.runs && key.step in s.runs[key.run].steps
    ensures var runs := Record(s, key, st).runs;
            key.run in runs && runs[key.run].steps == s.runs[key.run].steps[key.step := st]
  {
    hide Recompute;
  }

  lemma {:induction false} PlacedMoves(items: Items, id: nat, place: Place)
    requires id in items
    ensures Moved(items, items[id := items[id].(place := place)], id, place)
  {
  }

  lemma {:induction false} ReportMoves(p: Plan, max: nat, s: State, a: Action)
    requires Shape(p, max, s) && Enabled(p, s, a) && IsReport(p, s, a)
    ensures a.id in s.items && s.items[a.id].ticket.key.run in s.runs
    ensures var t, key := Apply(p, s, a), s.items[a.id].ticket.key;
            && key.step in s.runs[key.run].steps && key.run in t.runs
            && Moved(s.items, t.items, a.id, ReportPlace(a))
            && t.runs[key.run].steps == s.runs[key.run].steps[key.step := Reported(a)]
  {
    ReportIs(p, s, a);
    hide *;
    StepKnown(p, max, s, a.id);
    RecordSteps(s, s.items[a.id].ticket.key, Reported(a));
    PlacedMoves(s.items, a.id, ReportPlace(a));
  }

  lemma {:induction false} OwnExact(p: Plan, max: nat, s: State, a: Action)
    requires Shape(p, max, s) && UnderwayStarted(s.runs, s.items) && Enabled(p, s, a) && IsReport(p, s, a)
    ensures ExactStep(p, s, a, s.items[a.id].ticket.key)
  {
    assert a.Begin? || a.Return? || a.Fail? || a.Interrupt?;
    hide *;
    ReportMoves(p, max, s, a);
    OwnPlaces(p, s, a);
    var key := s.items[a.id].ticket.key;
    OwnLost(p, s.runs[key.run].steps, s.items, Apply(p, s, a).items, a.id, ReportPlace(a), Reported(a));
    LostAt(p, Apply(p, s, a), key);
    OwnDoes(p, s, a);
    ExactIf(p, s, a, key);
  }

  lemma {:induction false} LostAt(p: Plan, s: State, key: Key)
    requires key.run in s.runs
    ensures Lost(p, s, key) <==> LostIn(p, s.runs[key.run].steps, s.items, key)
  {
    hide LostIn;
  }

  lemma {:induction false} OwnDoes(p: Plan, s: State, a: Action)
    requires Enabled(p, s, a) && IsReport(p, s, a) && a.id in s.items
    requires var key := s.items[a.id].ticket.key; key.run in s.runs && key.step in s.runs[key.run].steps
    ensures Harms(p, s, a, s.items[a.id].ticket.key) <==> Reported(a) == SKIPPED
    ensures var key := s.items[a.id].ticket.key;
            s.runs[key.run].steps[key.step] == SKIPPED ==>
              (Repairs(p, s, a, key) <==> Reported(a) != SKIPPED)
    ensures Reported(a) == SKIPPED ==> !Repairs(p, s, a, s.items[a.id].ticket.key)
  {
    hide LastHope, Covered, DueBut;
    if Reported(a) == SKIPPED {
      NoOwnDep(p, s, s.items[a.id].ticket.key);
    }
  }

  /** A ready step does not wait for itself. */
  lemma {:induction false} NoOwnDep(p: Plan, s: State, key: Key)
    requires key.run in s.runs
    ensures IsReady(p.deps, s.runs[key.run].steps, key.step) ==> key.step !in p.deps[key.step]
  {
  }

  /** Before its ticket reports, a step that is lost was skipped. */
  lemma {:induction false} OwnPlaces(p: Plan, s: State, a: Action)
    requires UnderwayStarted(s.runs, s.items) && Enabled(p, s, a) && IsReport(p, s, a)
    ensures a.id in s.items && !Unstarted(Reported(a)) && (Reported(a) == RUNNING ==> Awaits(ReportPlace(a)))
    ensures var key := s.items[a.id].ticket.key;
            Lost(p, s, key) && Reported(a) != SKIPPED ==> s.runs[key.run].steps[key.step] == SKIPPED
  {
    var key := s.items[a.id].ticket.key;
    assert a.Begin? ==> Covered(s.items, key) && Busy(s.items, key);
    assert a.Return? || a.Fail? ==> Busy(s.items, key) && !IsUnstarted(s.runs, key);
    hide Covered, Busy, HandlerDue;
  }

  lemma {:induction false} OtherExact(p: Plan, max: nat, s: State, a: Action, key: Key)
    requires Shape(p, max, s) && Enabled(p, s, a) && IsReport(p, s, a)
    requires s.items[a.id].ticket.key != key && s.items[a.id].ticket.key.run == key.run
    ensures ExactStep(p, s, a, key)
  {
    ReportPlaces(p, s, a);
    hide *;
    ReportMoves(p, max, s, a);
    OtherLost(p, s.runs[key.run].steps, s.items, Apply(p, s, a).items, a.id, ReportPlace(a), Reported(a), key);
    LostAt(p, s, key);
    LostAt(p, Apply(p, s, a), key);
    OtherCompare(p, s, a, key);
    ExactIf(p, s, a, key);
  }

  lemma {:induction false} ReportPlaces(p: Plan, s: State, a: Action)
    requires Enabled(p, s, a) && IsReport(p, s, a)
    ensures a.Return? <==> ReportPlace(a) == Reporting
    ensures Reported(a) == COMPLETED ==> ReportPlace(a) == Reporting
    ensures s.items[a.id].place == Reporting ==> a.Interrupt?
  {
  }

  /** What `OtherLost` says after the transition, put beside what was lost before. */
  lemma {:induction false} OtherCompare(p: Plan, s: State, a: Action, key: Key)
    requires Enabled(p, s, a) && IsReport(p, s, a) && key.run in s.runs && a.id in s.items
    requires s.items[a.id].ticket.key != key && s.items[a.id].ticket.key.run == key.run
    ensures var steps, own := s.runs[key.run].steps, s.items[a.id].ticket.key;
            var after :=
              && key.step in steps
              && (|| steps[key.step] == SKIPPED
                  || (steps[key.step] == RUNNING && !Busy(s.items, key))
                  || (IsReady(p.deps, steps, key.step) && own.step !in p.deps[key.step] && !Covered(s.items, key)
                      && !DueBut(s.items, a.id, key.run) && ReportPlace(a) != Reporting));
            && (!LostIn(p, steps, s.items, key) ==> (after <==> Harms(p, s, a, key)))
            && (LostIn(p, steps, s.items, key) ==> (!after <==> Repairs(p, s, a, key)))
            && (Harms(p, s, a, key) ==> after)
  {
    ReportPlaces(p, s, a);
    SelfDue(s.items, a.id, key.run);
    OtherRepair(p, s, a, key);
    OtherHarm(p, s, a, key);
    ReadyIsUnstarted(p, s.runs[key.run].steps, key.step);
    hide Harms, Repairs, Covered, Busy, DueBut, HandlerDue, IsReady, Enabled, IsReport, ReportPlace, Reported;
  }

  lemma {:induction false} ReadyIsUnstarted(p: Plan, steps: Steps, k: StepId)
    ensures IsReady(p.deps, steps, k) ==> k in p.deps && k in steps && Unstarted(steps[k])
  {
  }

  lemma {:induction false} OtherHarm(p: Plan, s: State, a: Action, key: Key)
    requires Enabled(p, s, a) && IsReport(p, s, a) && key.run in s.runs
    requires s.items[a.id].ticket.key != key && s.items[a.id].ticket.key.run == key.run
    ensures Harms(p, s, a, key) <==>
            && a.Interrupt? && s.items[a.id].place == Reporting && IsReady(p.deps, s.runs[key.run].steps, key.step)
            && s.items[a.id].ticket.key.step !in p.deps[key.step]
            && !Covered(s.items, key) && !DueBut(s.items, a.id, key.run)
  {
    hide Covered, DueBut;
  }

  lemma {:induction false} OtherRepair(p: Plan, s: State, a: Action, key: Key)
    requires Enabled(p, s, a) && IsReport(p, s, a) && key.run in s.runs
    requires s.items[a.id].ticket.key != key && s.items[a.id].ticket.key.run == key.run
    ensures Repairs(p, s, a, key) <==>
            && IsReady(p.deps, s.runs[key.run].steps, key.step)
            && (a.Return? || s.items[a.id].ticket.key.step in p.deps[key.step])
  {
    var own := s.items[a.id].ticket.key;
    assert own == Key(key.run, own.step);
    if !a.Return? && key.step in p.deps && own.step in p.deps[key.step] {
      assert TakesBack(p, s, a, Key(key.run, own.step));
    }
  }

  lemma {:induction false} WakeExact(p: Plan, max: nat, s: State, a: Action, key: Key)
    requires Shape(p, max, s) && UnderwayStarted(s.runs, s.items) && Enabled(p, s, a) && a.Wake? && key.run in s.runs
    ensures ExactStep(p, s, a, key)
  {
    WakeDoes(p, s, a);
    hide *;
    StepKnown(p, max, s, a.id);
    WakeKeeps(s, a.id, key);
    StartedNotReady(p, s, a.id);
    WakeSame(p, s, a.id, key);
    ExactIf(p, s, a, key);
    NoWakeHarm(p, s, a, key);
  }

  lemma {:induction false} NoWakeHarm(p: Plan, s: State, a: Action, key: Key)
    requires Enabled(p, s, a) && a.Wake?
    ensures !Harms(p, s, a, key) && !Repairs(p, s, a, key)
  {
    hide IsReady;
  }

  lemma {:induction false} WakeDoes(p: Plan, s: State, a: Action)
    requires Enabled(p, s, a) && a.Wake?
    ensures At(s, a.id, Sleeping) && a.id in s.items && Apply(p, s, a) == DoWake(s, a.id)
  {
    hide DoWake;
  }

  lemma {:induction false} StartedNotReady(p: Plan, s: State, id: nat)
    requires UnderwayStarted(s.runs, s.items) && At(s, id, Sleeping)
    ensures var key := s.items[id].ticket.key;
            key.run in s.runs ==> !IsReady(p.deps, s.runs[key.run].steps, key.step)
  {
    assert !IsUnstarted(s.runs, s.items[id].ticket.key);
  }

  lemma {:induction false} WakeSame(p: Plan, s: State, id: nat, key: Key)
    requires id in s.items && key.run in s.runs
    requires Busy(DoWake(s, id).items, key) <==> Busy(s.items, key)
    requires HandlerDue(DoWake(s, id).items, key.run) <==> HandlerDue(s.items, key.run)
    requires s.items[id].ticket.key != key ==> (Covered(DoWake(s, id).items, key) <==> Covered(s.items, key))
    requires s.items[id].ticket.key == key ==> !IsReady(p.deps, s.runs[key.run].steps, key.step)
    ensures Lost(p, DoWake(s, id), key) <==> Lost(p, s, key)
  {
    assert DoWake(s, id).runs == s.runs;
    hide DoWake, Busy, HandlerDue, Covered, IsReady;
  }

  lemma {:induction false} WakeKeeps(s: State, id: nat, key: Key)
    requires At(s, id, Sleeping) && s.next !in s.items
    ensures Busy(DoWake(s, id).items, key) <==> Busy(s.items, key)
    ensures HandlerDue(DoWake(s, id).items, key.run) <==> HandlerDue(s.items, key.run)
    ensures s.items[id].ticket.key != key ==> (Covered(DoWake(s, id).items, key) <==> Covered(s.items, key))
  {
    var m, t := Move(s, id, Finished), DoWake(s, id);
    assert Moved(s.items, m.items, id, Finished);
    SelfCover(s.items, id, key);
    SelfDue(s.items, id, key.run);
    MovedCover(s.items, m.items, id, Finished, key);
    MovedBusy(s.items, m.items, id, Finished, key);
    MovedDue(s.items, m.items, id, Finished, key.run);
    hide Moved, CoveredBut, BusyBut, DueBut;
    Queued1(m.items, s.next, s.items[id].ticket, key);
    hide Covered, Busy, HandlerDue;
  }

  lemma {:induction false} Queued1(items: Items, n: nat, ticket: Ticket, key: Key)
    requires n !in items
    ensures var after := items[n := Item(ticket, Queued, false)];
            && (Covered(after, key) <==> Covered(items, key) || ticket.key == key)
            && (Busy(after, key) <==> Busy(items, key) || ticket.key == key)
            && (HandlerDue(after, key.run) <==> HandlerDue(items, key.run))
  {
    var after := items[n := Item(ticket, Queued, false)];
    assert after[n].place == Queued;
    if i :| i in items && items[i].ticket.key == key && InHand(items[i].place) {
      assert i in after;
    }
    if i :| i in items && items[i].ticket.key == key && Awaits(items[i].place) {
      assert i in after;
    }
    if i :| i in items && items[i].ticket.key.run == key.run && items[i].place == Reporting {
      assert i in after;
    }
    assert Awaits(Queued);
  }

  /** After `get_ready_steps` and the loop over it, every ready step has a queued ticket. */
  lemma {:induction false} OfferCovers(p: Plan, s: State, t: State, r: RunId, mark: bool)
    requires r in s.runs && WellFormed(p)
    requires var ready := Ready(p, s, r);
             NewItems(s, t, r, ready, |ready|) && NewStatuses(s, t, r, ready, |ready|, mark)
    ensures r in t.runs && forall k :: IsReady(p.deps, t.runs[r].steps, k) ==> Covered(t.items, Key(r, k))
  {
    var ready, was, now := Ready(p, s, r), s.runs[r].steps, t.runs[r].steps;
    assert now.Keys == was.Keys && forall k :: k in now ==> now[k] == was[k] || (now[k] == READY && k in ready[..|ready|]);
    assert ready[..|ready|] == ready;
    ReadyStepsExact(p.order, p.deps, was);
    hide ReadySteps, Recompute;
    forall k | IsReady(p.deps, now, k)
      ensures Covered(t.items, Key(r, k))
    {
      assert k in p.order;
      assert IsReady(p.deps, was, k);
      var m :| 0 <= m < |ready| && ready[m] == k;
      assert s.next + m in t.items && t.items[s.next + m].ticket.key == Key(r, k);
    }
  }

  /** What the handler does not offer it leaves as it is. */
  lemma {:induction false} HandledBusy(p: Plan, s: State, t: State, id: nat, ready: seq<StepId>, key: Key)
    requires At(s, id, Reporting) && s.items[id].ticket.key.run == key.run && key.step !in ready
    requires NewItems(Move(s, id, Finished), t, key.run, ready, |ready|)
    ensures Busy(t.items, key) <==> Busy(s.items, key)
  {
    assert forall n :: 0 <= n < |ready| ==> ready[n] in ready && ready[n] != key.step;
    if i :| i in t.items && t.items[i].ticket.key == key && Awaits(t.items[i].place) {
      assert i in s.items;
    }
    if i :| i in s.items && s.items[i].ticket.key == key && Awaits(s.items[i].place) {
      assert i in Move(s, id, Finished).items && i in t.items;
    }
  }

  /** The handler neither loses nor repairs: until it has run nothing ready counts as lost. */
  lemma {:induction false} HandledExact(p: Plan, max: nat, s: State, a: Action, key: Key)
    requires Shape(p, max, s) && WellFormed(p) && Enabled(p, s, a) && a.Handled?
    requires key.run in s.runs && s.items[a.id].ticket.key.run == key.run
    ensures ExactStep(p, s, a, key)
  {
    hide *;
    HandledDoes(p, s, a);
    HandledSame(p, max, s, a.id, key);
    NoHandlerHarm(p, s, a, key);
    ExactIf(p, s, a, key);
  }

  lemma {:induction false} HandledDoes(p: Plan, s: State, a: Action)
    requires Enabled(p, s, a) && a.Handled?
    ensures At(s, a.id, Reporting) && Apply(p, s, a) == DoHandled(p, s, a.id)
  {
    hide DoHandled;
  }

  lemma {:induction false} NoHandlerHarm(p: Plan, s: State, a: Action, key: Key)
    requires Enabled(p, s, a) && a.Handled?
    ensures !Harms(p, s, a, key) && !Repairs(p, s, a, key)
  {
    hide IsReady;
  }

  lemma {:induction false} HandledSame(p: Plan, max: nat, s: State, id: nat, key: Key)
    requires Shape(p, max, s) && WellFormed(p) && At(s, id, Reporting)
    requires key.run in s.runs && s.items[id].ticket.key.run == key.run
    ensures Lost(p, DoHandled(p, s, id), key) <==> Lost(p, s, key)
  {
    var ready, m := Ready(p, s, key.run), Move(s, id, Finished);
    var t := Offer(m, key.run, ready, |ready|, true);
    HandledBegins(p, max, s, id);
    hide *;
    ReadyKnown(p, s, key);
    OfferItems(m, key.run, ready, |ready|, true);
    OfferStatuses(m, key.run, ready, |ready|, true);
    OfferCovers(p, m, t, key.run, true);
    OfferMarks(m, t, key.run, ready, key.step);
    if key.step !in ready {
      HandledBusy(p, s, t, id, ready, key);
    }
    HandledCompare(p, s, t, key, ready);
  }

  lemma {:induction false} HandledBegins(p: Plan, max: nat, s: State, id: nat)
    requires Shape(p, max, s) && At(s, id, Reporting)
    ensures var m, run := Move(s, id, Finished), s.items[id].ticket.key.run;
            && m.runs == s.runs && Ready(p, m, run) == Ready(p, s, run) && (forall i :: i in m.items ==> i < m.next)
            && DoHandled(p, s, id) == Offer(m, run, Ready(p, s, run), |Ready(p, s, run)|, true)
            && HandlerDue(s.items, run)
  {
    Below(p, max, s);
    hide Shape, ReadySteps, Offer;
  }

  lemma {:induction false} OfferMarks(m: State, t: State, run: RunId, ready: seq<StepId>, k: StepId)
    requires NewStatuses(m, t, run, ready, |ready|, true) && run in m.runs
    ensures run in t.runs && t.runs[run].steps.Keys == m.runs[run].steps.Keys
    ensures k in t.runs[run].steps ==>
              t.runs[run].steps[k] == if k in ready then READY else m.runs[run].steps[k]
  {
    assert ready[..|ready|] == ready;
    hide Recompute;
  }

  lemma {:induction false} HandledCompare(p: Plan, s: State, t: State, key: Key, ready: seq<StepId>)
    requires key.run in s.runs && key.run in t.runs && HandlerDue(s.items, key.run)
    requires t.runs[key.run].steps.Keys == s.runs[key.run].steps.Keys
    requires key.step in t.runs[key.run].steps ==>
               t.runs[key.run].steps[key.step] == if key.step in ready then READY else s.runs[key.run].steps[key.step]
    requires key.step in ready ==>
               key.step in s.runs[key.run].steps && Unstarted(s.runs[key.run].steps[key.step])
    requires key.step !in ready ==> (Busy(t.items, key) <==> Busy(s.items, key))
    requires forall k :: IsReady(p.deps, t.runs[key.run].steps, k) ==> Covered(t.items, Key(key.run, k))
    ensures Lost(p, t, key) <==> Lost(p, s, key)
  {
    hide Busy, Covered, HandlerDue, IsReady;
    assert Key(key.run, key.step) == key;
    assert key.step in s.runs[key.run].steps.Keys <==> key.step in t.runs[key.run].steps.Keys;
  }

  lemma {:induction false} ReadyKnown(p: Plan, s: State, key: Key)
    requires key.run in s.runs
    ensures key.step in Ready(p, s, key.run) ==>
              key.step in s.runs[key.run].steps && Unstarted(s.runs[key.run].steps[key.step])
  {
    ReadyStepsExact(p.order, p.deps, s.runs[key.run].steps);
    hide ReadySteps;
  }

  // ----- Every transition -------------------------------------------------------------

  /** For every transition and every step: a step that is not lost becomes lost exactly if the
      transition harms it, and a lost one stops being lost exactly if it repairs it. */
  lemma {:induction false} LostIff(p: Plan, max: nat, s: State, a: Action, key: Key)
    requires Shape(p, max, s) && WellFormed(p) && UnderwayStarted(s.runs, s.items) && Enabled(p, s, a) && key.run in s.runs
    ensures ExactStep(p, s, a, key)
  {
    StepOwner(p, max, s, a);
    KindOf(p, s, a);
    if RunOf(s, a) != key.run {
      hide *;
      OtherRunExact(p, max, s, a, key);
    } else {
      RunOfIs(s, a);
      hide *;
      if a.CancelStep? {
        CancelStepExact(p, max, s, a, key);
      } else if a.CancelRun? {
        CancelRunExact(p, s, a, key);
      } else if a.Handled? {
        HandledExact(p, max, s, a, key);
      } else if a.Wake? {
        WakeExact(p, max, s, a, key);
      } else if IsQuiet(p, s, a) {
        QuietExact(p, s, a, key);
      } else if s.items[a.id].ticket.key == key {
        OwnExact(p, max, s, a);
      } else {
        OtherExact(p, max, s, a, key);
      }
    }
  }

  lemma {:induction false} KindOf(p: Plan, s: State, a: Action)
    requires Enabled(p, s, a)
    ensures a.Execute? || a.CancelStep? || a.CancelRun? || a.Handled? || a.Wake? || IsQuiet(p, s, a) || IsReport(p, s, a)
  {
  }

  lemma {:induction false} RunOfIs(s: State, a: Action)
    requires a.Execute? || a.CancelStep? || a.CancelRun? || a.id in s.items
    ensures a.Execute? || a.CancelRun? ==> RunOf(s, a) == a.run
    ensures !a.Execute? && !a.CancelRun? && !a.CancelStep? ==> RunOf(s, a) == s.items[a.id].ticket.key.run
  {
  }

  lemma {:induction false} CancelStepMoves(p: Plan, max: nat, s: State, key: Key)
    requires Shape(p, max, s)
    ensures var t := DoCancelStep(s, key);
            && t.runs == s.runs && t.items.Keys == s.items.Keys
            && forall i :: i in s.items ==> t.items[i].ticket == s.items[i].ticket && t.items[i].place == s.items[i].place
  {
    hide Shape;
    if key in s.active {
      ActiveTask(p, max, s, key);
    }
  }

  lemma {:induction false} StepOwner(p: Plan, max: nat, s: State, a: Action)
    requires Enabled(p, s, a)
    ensures a.Execute? || a.CancelStep? || a.CancelRun? || a.id in s.items
    ensures a.Execute? ==> RunOf(s, a) !in s.runs
  {
  }

  lemma {:induction false} LogKept(p: Plan, s: State, a: Action)
    requires Enabled(p, s, a)
    ensures s.log <= Apply(p, s, a).log
    ensures s.runs.Keys <= Apply(p, s, a).runs.Keys
    ensures !a.Execute? ==> Apply(p, s, a).runs.Keys == s.runs.Keys
    ensures a.Execute? ==> Apply(p, s, a).runs.Keys == s.runs.Keys + {a.run}
  {
    hide WithStep, Derived;
    if a.Execute? || a.Handled? {
      hide Apply;
      OfferKept(p, s, a);
    }
  }

  lemma {:induction false} OfferKept(p: Plan, s: State, a: Action)
    requires Enabled(p, s, a) && (a.Execute? || a.Handled?)
    ensures Apply(p, s, a).log == s.log
    ensures Apply(p, s, a).runs.Keys == if a.Execute? then s.runs.Keys + {a.run} else s.runs.Keys
  {
    hide Offer, Ready, Started;
    if a.Execute? {
      var started := s.(runs := s.runs[a.run := Started(p.deps)]);
      OfferLog(started, a.run, Ready(p, started, a.run), |Ready(p, started, a.run)|, false);
    } else {
      var m := Move(s, a.id, Finished);
      OfferLog(m, RunOf(s, a), Ready(p, s, RunOf(s, a)), |Ready(p, s, RunOf(s, a))|, true);
    }
  }

  lemma {:induction false} OfferLog(s: State, run: RunId, ks: seq<StepId>, n: nat, mark: bool)
    requires n <= |ks|
    ensures Offer(s, run, ks, n, mark).log == s.log
    ensures Offer(s, run, ks, n, mark).runs.Keys == s.runs.Keys
    decreases n
  {
    if n == 0 {
    } else {
      OfferLog(s, run, ks, n - 1, mark);
    }
  }

  // ----- Runs that nothing happened to ------------------------------------------------

  /** An event that may have lost a step of run `r`. */
  predicate Disturbs(e: Event, r: RunId) {
    || (e.Dropped? && e.ticket.key.run == r)
    || (e.Interrupted? && e.ticket.key.run == r)
    || e == RunWithdrawn(r)
  }

  ghost predicate Disturbed(log: seq<Event>, r: RunId) {
    exists e :: e in log && Disturbs(e, r)
  }

  /** The invariant: every run in which no entry was dropped, no task interrupted and which was
      not cancelled has lost nothing. Asking for a cancellation is not enough to lose work. */
  ghost predicate NoLoss(p: Plan, s: State) {
    forall r :: r in s.runs && !Disturbed(s.log, r) ==> NothingLost(p, s, r)
  }

  /** What loses a step leaves a mark in the log. */
  lemma {:induction false} HarmIsLogged(p: Plan, s: State, a: Action, key: Key)
    requires Enabled(p, s, a) && Harms(p, s, a, key)
    ensures Disturbed(Apply(p, s, a).log, key.run)
  {
    hide LastHope, Cancelled, WithStep, Covered, DueBut, IsReady;
    var log := Apply(p, s, a).log;
    assert Disturbs(log[|log| - 1], key.run);
  }

  lemma {:induction false} DisturbedLater(log: seq<Event>, later: seq<Event>, r: RunId)
    requires log <= later && Disturbed(log, r)
    ensures Disturbed(later, r)
  {
    var e :| e in log && Disturbs(e, r);
    var i :| 0 <= i < |log| && log[i] == e;
    assert later[i] == e;
  }

  lemma {:induction false} NoStepLost(p: Plan, s: State, r: RunId)
    requires r in s.runs && NothingLost(p, s, r)
    ensures forall k :: !Lost(p, s, Key(r, k))
  {
    hide Lost, Derived;
  }

  lemma {:induction false} UndisturbedStatus(p: Plan, s: State, r: RunId)
    requires StatusSound(p, s.runs, s.log) && r in s.runs && !Withdrawn(s.log, r)
    ensures p.deps != map[] ==> s.runs[r].status == Derived(s.runs[r].steps)
  {
    hide Derived, Withdrawn;
  }

  lemma {:induction false} WithdrawnDisturbs(log: seq<Event>, r: RunId)
    requires Withdrawn(log, r)
    ensures Disturbed(log, r)
  {
    assert Disturbs(RunWithdrawn(r), r);
  }

  lemma {:induction false} WholeIf(p: Plan, s: State, r: RunId)
    requires r in s.runs && (forall k :: !Lost(p, s, Key(r, k)))
    requires StatusSound(p, s.runs, s.log) && !Withdrawn(s.log, r)
    ensures NothingLost(p, s, r)
  {
    UndisturbedStatus(p, s, r);
    hide Lost, Derived, Withdrawn, StatusSound;
  }

  /** A run starts with every ready step queued and nothing else begun. */
  lemma {:induction false} StartLost(p: Plan, max: nat, s: State, r: RunId, k: StepId)
    requires Shape(p, max, s) && WellFormed(p) && r !in s.runs
    ensures r in DoExecute(p, s, r).runs && !Lost(p, DoExecute(p, s, r), Key(r, k))
  {
    var started := s.(runs := s.runs[r := Started(p.deps)]);
    var ready, t := Ready(p, started, r), DoExecute(p, s, r);
    Below(p, max, s);
    hide Shape, Ready, WellFormed, Offer, IsReady;
    OfferItems(started, r, ready, |ready|, false);
    OfferStatuses(started, r, ready, |ready|, false);
    OfferCovers(p, started, t, r, false);
    hide NewItems, Covered, Busy, HandlerDue;
  }

  lemma {:induction false} StartExact(p: Plan, max: nat, s: State, a: Action, r: RunId, k: StepId)
    requires Shape(p, max, s) && WellFormed(p) && Enabled(p, s, a) && r !in s.runs && r in Apply(p, s, a).runs
    ensures !Lost(p, Apply(p, s, a), Key(r, k))
  {
    LogKept(p, s, a);
    assert a == Execute(r);
    hide Shape, WellFormed, DoExecute, Lost;
    StartLost(p, max, s, r, k);
  }

  lemma {:induction false} NoLossStep(p: Plan, max: nat, s: State, a: Action)
    requires Shape(p, max, s) && WellFormed(p) && UnderwayStarted(s.runs, s.items) && StatusSound(p, s.runs, s.log)
    requires NoLoss(p, s) && Enabled(p, s, a)
    ensures NoLoss(p, Apply(p, s, a))
  {
    var t := Apply(p, s, a);
    LogKept(p, s, a);
    hide Shape, WellFormed, Apply, NothingLost, Enabled, Disturbed, StatusSound, UnderwayStarted;
    forall r | r in t.runs && !Disturbed(t.log, r)
      ensures NothingLost(p, t, r)
    {
      NoLossRun(p, max, s, a, r);
    }
  }

  lemma {:induction false} NoLossRun(p: Plan, max: nat, s: State, a: Action, r: RunId)
    requires Shape(p, max, s) && WellFormed(p) && UnderwayStarted(s.runs, s.items) && StatusSound(p, s.runs, s.log)
    requires NoLoss(p, s) && Enabled(p, s, a) && r in Apply(p, s, a).runs && !Disturbed(Apply(p, s, a).log, r)
    ensures NothingLost(p, Apply(p, s, a), r)
  {
    hide *;
    StatusSoundStep(p, s, a);
    if Withdrawn(Apply(p, s, a).log, r) {
      WithdrawnDisturbs(Apply(p, s, a).log, r);
    }
    forall k
      ensures !Lost(p, Apply(p, s, a), Key(r, k))
    {
      NoLossKey(p, max, s, a, r, k);
    }
    WholeIf(p, Apply(p, s, a), r);
  }

  lemma {:induction false} NoLossKey(p: Plan, max: nat, s: State, a: Action, r: RunId, k: StepId)
    requires Shape(p, max, s) && WellFormed(p) && UnderwayStarted(s.runs, s.items) && NoLoss(p, s) && Enabled(p, s, a)
    requires r in Apply(p, s, a).runs && !Disturbed(Apply(p, s, a).log, r)
    ensures !Lost(p, Apply(p, s, a), Key(r, k))
  {
    hide *;
    if r !in s.runs {
      StartExact(p, max, s, a, r, k);
    } else {
      LogKept(p, s, a);
      if Disturbed(s.log, r) {
        DisturbedLater(s.log, Apply(p, s, a).log, r);
      }
      NoLossAt(p, s, r);
      NoStepLost(p, s, r);
      LostIff(p, max, s, a, Key(r, k));
      OpenExact(p, s, a, Key(r, k));
      if Harms(p, s, a, Key(r, k)) {
        HarmIsLogged(p, s, a, Key(r, k));
      }
    }
  }

  lemma {:induction false} OpenExact(p: Plan, s: State, a: Action, key: Key)
    requires Enabled(p, s, a) && ExactStep(p, s, a, key)
    ensures !Lost(p, s, key) ==> (Lost(p, Apply(p, s, a), key) <==> Harms(p, s, a, key))
    ensures Lost(p, s, key) ==> (!Lost(p, Apply(p, s, a), key) <==> Repairs(p, s, a, key))
    ensures Harms(p, s, a, key) ==> Lost(p, Apply(p, s, a), key)
  {
    hide Lost, Harms, Repairs;
  }

  lemma {:induction false} NoLossAt(p: Plan, s: State, r: RunId)
    requires NoLoss(p, s) && r in s.runs && !Disturbed(s.log, r)
    ensures NothingLost(p, s, r)
  {
    hide NothingLost, Disturbed;
  }
}
