/** The scheduler does finitely much work, and never stands still while work is left. */
module SchedulerWork {
  import opened Sequences
  import opened Workflow
  import opened DependencyEngine
  import opened WorkflowRuns
  import opened SchedulerModel
  import opened SchedulerSafety

  type Runs = map<RunId, RunState>

  predicate IsUnstarted(runs: Runs, key: Key) {
    key.run in runs && key.step in runs[key.run].steps && Unstarted(runs[key.run].steps[key.step])
  }

  ghost function UnstartedKeys(runs: Runs): set<Key> {
    set r, k | r in runs && k in runs[r].steps && Unstarted(runs[r].steps[k]) :: Key(r, k)
  }

  /** A step that has left PENDING, WAITING and READY never returns there. */
  ghost predicate NeverBack(before: Runs, after: Runs) {
    forall key: Key :: key.run in before && IsUnstarted(after, key) ==> IsUnstarted(before, key)
  }

  /** Past its first status report. */
  predicate Underway(place: Place) {
    place == Announcing || place == Working || place == Reporting || place == Failing || place == Sleeping
  }

  ghost predicate UnderwayStarted(runs: Runs, items: Items) {
    forall i :: i in items && Underway(items[i].place) ==> !IsUnstarted(runs, items[i].ticket.key)
  }

  // ----- Each transition and the unstarted steps --------------------------------------

  lemma {:induction false} RecordStarted(s: State, key: Key, st: StepStatus)
    requires !Unstarted(st)
    ensures NeverBack(s.runs, Record(s, key, st).runs)
    ensures !IsUnstarted(Record(s, key, st).runs, key)
    ensures forall other :: other != key ==> IsUnstarted(Record(s, key, st).runs, other) == IsUnstarted(s.runs, other)
  {
    hide Recompute;
  }

  lemma {:induction false} OfferKeepsUnstarted(p: Plan, s: State, t: State, run: RunId, mark: bool)
    requires var ready := Ready(p, s, run); NewStatuses(s, t, run, ready, |ready|, mark)
    ensures forall key :: IsUnstarted(t.runs, key) == IsUnstarted(s.runs, key)
    ensures forall k :: k in Ready(p, s, run) ==> IsUnstarted(s.runs, Key(run, k))
  {
    if run in s.runs {
      ReadyStepsExact(p.order, p.deps, s.runs[run].steps);
      var ready := Ready(p, s, run);
      assert ready[..|ready|] == ready;
      hide ReadySteps, Recompute;
    }
  }

  // ----- The measure ------------------------------------------------------------------

  /** How many moves a ticket may still make, counting every retry it has left. */
  function Weight(p: Plan, item: Item): nat {
    var left := if MaxRetries(p, item.ticket.key.step) > item.ticket.retryCount
                then MaxRetries(p, item.ticket.key.step) - item.ticket.retryCount else 0;
    match item.place
    case Queued => 10 * left + 9
    case Held => 10 * left + 8
    case Launched => 10 * left + 7
    case Announcing => 10 * left + 6
    case Working => 10 * left + 5
    case Sleeping => 10 * left + 11
    case Reporting => 2
    case Failing => 2
    case Finished => 1
  }

  /** The weight of slot `i`, if its step is (un)started as asked for. */
  function Share(p: Plan, runs: Runs, items: Items, i: nat, unstarted: bool): nat {
    if i in items && IsUnstarted(runs, items[i].ticket.key) == unstarted then Weight(p, items[i]) else 0
  }

  function Total(p: Plan, runs: Runs, items: Items, n: nat, unstarted: bool): nat {
    if n == 0 then 0 else Total(p, runs, items, n - 1, unstarted) + Share(p, runs, items, n - 1, unstarted)
  }

  /** Lexicographic: unstarted steps, then weight of started steps, then of unstarted ones. */
  ghost predicate Less(p: Plan, t: State, s: State) {
    var u, u' := |UnstartedKeys(s.runs)|, |UnstartedKeys(t.runs)|;
    var w, w' := Total(p, s.runs, s.items, s.next, false), Total(p, t.runs, t.items, t.next, false);
    var v, v' := Total(p, s.runs, s.items, s.next, true), Total(p, t.runs, t.items, t.next, true);
    u' < u || (u' == u && (w' < w || (w' == w && v' < v)))
  }

  lemma {:induction false} TotalSame(p: Plan, runs: Runs, items: Items, runs': Runs, items': Items, n: nat, un: bool)
    requires forall i :: 0 <= i < n ==> Share(p, runs', items', i, un) == Share(p, runs, items, i, un)
    ensures Total(p, runs', items', n, un) == Total(p, runs, items, n, un)
  {
    if n == 0 {
    } else {
      TotalSame(p, runs, items, runs', items', n - 1, un);
    }
  }

  /** The totals differ by what changed in the one slot `id`. */
  lemma {:induction false} TotalOne(p: Plan, runs: Runs, items: Items, runs': Runs, items': Items, n: nat, un: bool,
            id: nat)
    requires forall i :: 0 <= i < n && i != id ==> Share(p, runs', items', i, un) == Share(p, runs, items, i, un)
    requires id < n
    ensures Total(p, runs', items', n, un) - Share(p, runs', items', id, un) ==
            Total(p, runs, items, n, un) - Share(p, runs, items, id, un)
  {
    if n - 1 == id {
      TotalSame(p, runs, items, runs', items', n - 1, un);
    } else {
      TotalOne(p, runs, items, runs', items', n - 1, un, id);
    }
  }

  lemma {:induction false} TotalLonger(p: Plan, runs: Runs, items: Items, n: nat, m: nat, un: bool)
    requires n <= m && forall i :: n <= i < m ==> Share(p, runs, items, i, un) == 0
    ensures Total(p, runs, items, m, un) == Total(p, runs, items, n, un)
    decreases m
  {
    if m == n {
    } else {
      TotalLonger(p, runs, items, n, m - 1, un);
    }
  }

  // ----- Every transition of the scheduler decreases it -------------------------------

  /** Transitions the scheduler makes on its own. */
  predicate IsWorkStep(a: Action) {
    !a.Execute? && !a.CancelStep? && !a.CancelRun?
  }

  ghost predicate SameUnstarted(before: Runs, after: Runs) {
    forall key :: IsUnstarted(after, key) == IsUnstarted(before, key)
  }

  lemma {:induction false} SameUnstartedKeys(before: Runs, after: Runs)
    requires SameUnstarted(before, after)
    ensures UnstartedKeys(after) == UnstartedKeys(before)
  {
    forall key
      ensures key in UnstartedKeys(after) <==> key in UnstartedKeys(before)
    {
      InUnstarted(before, key);
      InUnstarted(after, key);
    }
  }

  lemma {:induction false} InUnstarted(runs: Runs, key: Key)
    ensures key in UnstartedKeys(runs) <==> IsUnstarted(runs, key)
  {
  }

  /** One item got lighter or left, nothing else changed. */
  lemma {:induction false} OneLighter(p: Plan, s: State, t: State, id: nat)
    requires SameUnstarted(s.runs, t.runs) && t.next == s.next && id in s.items && id < s.next
    requires forall i :: i != id ==> ((i in t.items) <==> (i in s.items))
    requires forall i :: i != id && i in t.items && i in s.items ==> t.items[i] == s.items[i]
    requires id in t.items ==> t.items[id].ticket.key == s.items[id].ticket.key
    requires id in t.items ==> Weight(p, t.items[id]) < Weight(p, s.items[id])
    requires Weight(p, s.items[id]) > 0
    ensures Less(p, t, s)
  {
    SameUnstartedKeys(s.runs, t.runs);
    hide Weight, IsUnstarted, UnstartedKeys;
    TotalOne(p, s.runs, s.items, t.runs, t.items, s.next, true, id);
    TotalOne(p, s.runs, s.items, t.runs, t.items, s.next, false, id);
  }

  lemma {:induction false} FirstStart(p: Plan, s: State, t: State, key: Key)
    requires IsUnstarted(s.runs, key) && !IsUnstarted(t.runs, key)
    requires forall other :: other != key ==> IsUnstarted(t.runs, other) == IsUnstarted(s.runs, other)
    ensures Less(p, t, s)
  {
    var before, after := UnstartedKeys(s.runs), UnstartedKeys(t.runs);
    forall other
      ensures other in after <==> other in before && other != key
    {
      InUnstarted(s.runs, other);
      InUnstarted(t.runs, other);
    }
    InUnstarted(s.runs, key);
    assert before == after + {key};
  }

  lemma {:induction false} WorkBegin(p: Plan, s: State, id: nat, agentFound: bool)
    requires At(s, id, Launched) && id < s.next
    ensures Less(p, DoBegin(s, id, agentFound), s)
  {
    var t, key := DoBegin(s, id, agentFound), s.items[id].ticket.key;
    var st := if agentFound then RUNNING else FAILED;
    RecordStarted(s, key, st);
    assert t.runs == Record(s, key, st).runs;
    hide Record, Less, IsUnstarted;
    if IsUnstarted(s.runs, key) {
      FirstStart(p, s, t, key);
    } else {
      OneLighter(p, s, t, id);
    }
  }

  /** A task underway records a result and moves on. */
  lemma {:induction false} WorkTask(p: Plan, s: State, t: State, id: nat, st: StepStatus)
    requires id in s.items && id < s.next && !Unstarted(st)
    requires t.runs == s.runs || (t.runs == Record(s, s.items[id].ticket.key, st).runs && Underway(s.items[id].place))
    requires UnderwayStarted(s.runs, s.items) && t.next == s.next
    requires id in t.items && t.items == s.items[id := t.items[id]]
    requires t.items[id].ticket.key == s.items[id].ticket.key
    requires Weight(p, t.items[id]) < Weight(p, s.items[id])
    ensures Less(p, t, s)
  {
    RecordStarted(s, s.items[id].ticket.key, st);
    hide Record, Less, IsUnstarted, Weight;
    OneLighter(p, s, t, id);
  }

  lemma {:induction false} WorkWake(p: Plan, s: State, id: nat)
    requires At(s, id, Sleeping) && id < s.next && s.next !in s.items && UnderwayStarted(s.runs, s.items)
    ensures Less(p, DoWake(s, id), s)
  {
    var t, key := DoWake(s, id), s.items[id].ticket.key;
    assert !IsUnstarted(s.runs, key);
    SameUnstartedKeys(s.runs, t.runs);
    hide IsUnstarted, UnstartedKeys;
    TotalOne(p, s.runs, s.items, t.runs, t.items, s.next, false, id);
    assert Share(p, t.runs, t.items, s.next, false) + 2 == Share(p, s.runs, s.items, id, false);
    assert Share(p, t.runs, t.items, id, false) == 1;
  }

  /** Newly offered tickets are for unstarted steps. */
  lemma {:induction false} OfferedShares(p: Plan, s: State, t: State, run: RunId, ks: seq<StepId>, i: nat)
    requires NewItems(s, t, run, ks, |ks|) && s.next <= i < t.next
    requires forall k :: k in ks ==> IsUnstarted(t.runs, Key(run, k))
    ensures Share(p, t.runs, t.items, i, false) == 0
  {
    assert ks[i - s.next] in ks;
    hide IsUnstarted, Weight;
  }

  lemma {:induction false} WorkHandled(p: Plan, s: State, id: nat)
    requires At(s, id, Reporting) && UnderwayStarted(s.runs, s.items)
    requires forall i :: i in s.items ==> i < s.next
    ensures Less(p, DoHandled(p, s, id), s)
  {
    var run := s.items[id].ticket.key.run;
    var m, ready := Move(s, id, Finished), Ready(p, s, run);
    var t := Offer(m, run, ready, |ready|, true);
    assert !IsUnstarted(s.runs, s.items[id].ticket.key);
    hide IsUnstarted, UnstartedKeys, ReadySteps, Offer, NewStatuses, UnderwayStarted;
    OfferItems(m, run, ready, |ready|, true);
    OfferStatuses(m, run, ready, |ready|, true);
    OfferKeepsUnstarted(p, m, t, run, true);
    SameUnstartedKeys(s.runs, t.runs);
    forall i | s.next <= i < t.next
      ensures Share(p, t.runs, t.items, i, false) == 0
    {
      OfferedShares(p, m, t, run, ready, i);
    }
    TotalLonger(p, t.runs, t.items, s.next, t.next, false);
    HandledTotal(p, s, m, t, id, run, ready);
  }

  lemma {:induction false} HandledTotal(p: Plan, s: State, m: State, t: State, id: nat, run: RunId, ks: seq<StepId>)
    requires At(s, id, Reporting) && m == Move(s, id, Finished) && id < s.next
    requires NewItems(m, t, run, ks, |ks|) && SameUnstarted(s.runs, t.runs)
    requires !IsUnstarted(s.runs, s.items[id].ticket.key)
    ensures Total(p, t.runs, t.items, s.next, false) + 1 == Total(p, s.runs, s.items, s.next, false)
  {
    hide IsUnstarted, Total;
    TotalOne(p, s.runs, s.items, t.runs, t.items, s.next, false, id);
  }

  lemma {:induction false} WorkReturn(p: Plan, s: State, id: nat)
    requires UnderwayStarted(s.runs, s.items) && At(s, id, Working) && id < s.next
    ensures Less(p, DoReturn(s, id), s)
  {
    hide Less, UnderwayStarted, WithStep, IsUnstarted;
    WorkTask(p, s, DoReturn(s, id), id, COMPLETED);
  }

  lemma {:induction false} WorkFail(p: Plan, s: State, id: nat)
    requires UnderwayStarted(s.runs, s.items) && At(s, id, Working) && id < s.next
    ensures Less(p, DoFail(p, s, id), s)
  {
    hide Less, UnderwayStarted, WithStep, IsUnstarted;
    WorkTask(p, s, DoFail(p, s, id), id, FAILED);
  }

  lemma {:induction false} WorkInterrupt(p: Plan, s: State, id: nat)
    requires UnderwayStarted(s.runs, s.items) && Enabled(p, s, Interrupt(id)) && id < s.next
    ensures Less(p, DoInterrupt(s, id), s)
  {
    hide Less, UnderwayStarted, WithStep, IsUnstarted;
    WorkTask(p, s, DoInterrupt(s, id), id, SKIPPED);
  }

  lemma {:induction false} WorkPublish(p: Plan, s: State, a: Action)
    requires UnderwayStarted(s.runs, s.items) && Enabled(p, s, a) && (a.Announced? || a.Published?) && a.id < s.next
    ensures Less(p, Apply(p, s, a), s)
  {
    hide Less, UnderwayStarted, IsUnstarted;
    WorkTask(p, s, Apply(p, s, a), a.id, FAILED);
  }

  lemma {:induction false} WorkMoves(p: Plan, s: State, a: Action)
    requires UnderwayStarted(s.runs, s.items) && Enabled(p, s, a) && MovesTask(a) && a.id < s.next
    ensures Less(p, Apply(p, s, a), s)
  {
    hide Less, UnderwayStarted, DoBegin, DoReturn, DoFail, DoInterrupt;
    match a
    case Begin(id, agentFound) => WorkBegin(p, s, id, agentFound);
    case Return(id) => WorkReturn(p, s, id);
    case Fail(id) => WorkFail(p, s, id);
    case Interrupt(id) => WorkInterrupt(p, s, id);
    case Announced(id) => WorkPublish(p, s, a);
    case Published(id) => WorkPublish(p, s, a);
  }

  lemma {:induction false} WorkDecreases(p: Plan, max: nat, s: State, a: Action)
    requires Shape(p, max, s) && UnderwayStarted(s.runs, s.items) && Enabled(p, s, a) && IsWorkStep(a)
    ensures Less(p, Apply(p, s, a), s)
  {
    hide Shape, Less, UnderwayStarted, Offer, Ready;
    Below(p, max, s);
    if MovesTask(a) {
      hide Apply;
      WorkMoves(p, s, a);
    } else if a.Wake? {
      WorkWake(p, s, a.id);
    } else if a.Handled? {
      WorkHandled(p, s, a.id);
    } else {
      hide Apply;
      WorkLoop(p, s, a);
    }
  }

  lemma {:induction false} WorkLoop(p: Plan, s: State, a: Action)
    requires Enabled(p, s, a) && (a.Dequeue? || a.Acquire? || a.Release?) && a.id < s.next
    ensures Less(p, Apply(p, s, a), s)
  {
    hide Less, IsUnstarted;
    OneLighter(p, s, Apply(p, s, a), a.id);
  }

  // ----- What the measure relies on ---------------------------------------------------

  lemma {:induction false} CancelKeepsStarted(s: State, run: RunId)
    requires run in s.runs
    ensures NeverBack(s.runs, DoCancelRun(s, run).runs)
  {
  }

  lemma {:induction false} OfferNeverBack(p: Plan, s: State, run: RunId, mark: bool)
    requires forall i :: i in s.items ==> i < s.next
    ensures var ready := Ready(p, s, run);
            forall key :: IsUnstarted(Offer(s, run, ready, |ready|, mark).runs, key) == IsUnstarted(s.runs, key)
  {
    var ready := Ready(p, s, run);
    hide IsUnstarted, Ready;
    OfferStatuses(s, run, ready, |ready|, mark);
    OfferKeepsUnstarted(p, s, Offer(s, run, ready, |ready|, mark), run, mark);
  }

  lemma {:induction false} NeverBackStep(p: Plan, max: nat, s: State, a: Action)
    requires Shape(p, max, s) && Enabled(p, s, a)
    ensures NeverBack(s.runs, Apply(p, s, a).runs)
  {
    hide Shape, Recompute, IsUnstarted, Offer, Cancelled;
    Below(p, max, s);
    match a
    case Execute(run) =>
      var started := s.(runs := s.runs[run := Started(p.deps)]);
      OfferNeverBack(p, started, run, false);
      StartedApart(s, run, Started(p.deps));
    case Handled(id) => OfferNeverBack(p, Move(s, id, Finished), s.items[id].ticket.key.run, true);
    case Begin(id, agentFound) => RecordStarted(s, s.items[id].ticket.key, if agentFound then RUNNING else FAILED);
    case Return(id) => RecordStarted(s, s.items[id].ticket.key, COMPLETED);
    case Fail(id) => RecordStarted(s, s.items[id].ticket.key, FAILED);
    case Interrupt(id) => RecordStarted(s, s.items[id].ticket.key, SKIPPED);
    case CancelRun(run) => CancelKeepsStarted(s, run);
    case CancelStep(key) =>
    case Dequeue(id) =>
    case Acquire(id) =>
    case Announced(id) =>
    case Published(id) =>
    case Wake(id) =>
    case Release(id) =>
  }

  lemma {:induction false} StartedApart(s: State, run: RunId, state: RunState)
    requires run !in s.runs
    ensures forall key: Key :: key.run in s.runs ==> IsUnstarted(s.runs[run := state], key) == IsUnstarted(s.runs, key)
  {
  }

  /** Every item underway was underway before, or has just had a status recorded. */
  lemma {:induction false} UnderwayStep(p: Plan, max: nat, s: State, a: Action)
    requires Shape(p, max, s) && UnderwayStarted(s.runs, s.items) && Enabled(p, s, a)
    ensures UnderwayStarted(Apply(p, s, a).runs, Apply(p, s, a).items)
  {
    var t := Apply(p, s, a);
    NeverBackStep(p, max, s, a);
    forall i | i in t.items && Underway(t.items[i].place)
      ensures !IsUnstarted(t.runs, t.items[i].ticket.key)
    {
      UnderwayFrom(p, max, s, a, i);
      if i in s.items && Underway(s.items[i].place) {
        KnownItem(p, max, s, i);
        hide IsUnstarted, Apply;
      } else {
        BeginStarts(s, a.id, a.agentFound);
      }
    }
  }

  lemma {:induction false} BeginStarts(s: State, id: nat, agentFound: bool)
    requires id in s.items
    ensures !IsUnstarted(DoBegin(s, id, agentFound).runs, s.items[id].ticket.key)
  {
    RecordStarted(s, s.items[id].ticket.key, if agentFound then RUNNING else FAILED);
    hide Record, IsUnstarted;
  }

  lemma {:induction false} OfferedFrom(s: State, run: RunId, ks: seq<StepId>, mark: bool, i: nat)
    requires forall j :: j in s.items ==> j < s.next
    requires i in Offer(s, run, ks, |ks|, mark).items && Underway(Offer(s, run, ks, |ks|, mark).items[i].place)
    ensures i in s.items && Offer(s, run, ks, |ks|, mark).items[i] == s.items[i]
  {
    OfferItems(s, run, ks, |ks|, mark);
    hide Offer;
  }

  lemma {:induction false} TaskUnderway(p: Plan, s: State, a: Action)
    requires Enabled(p, s, a) && MovesTask(a)
    ensures a.id in s.items && a.id in Apply(p, s, a).items
    ensures Underway(Apply(p, s, a).items[a.id].place) ==> Underway(s.items[a.id].place) || a.Begin?
  {
    hide WithStep;
  }

  lemma {:induction false} UnderwayFrom(p: Plan, max: nat, s: State, a: Action, i: nat)
    requires Shape(p, max, s) && Enabled(p, s, a) && i in Apply(p, s, a).items
    requires Underway(Apply(p, s, a).items[i].place)
    ensures (i in s.items && Underway(s.items[i].place)) || (a.Begin? && i == a.id)
    ensures i in s.items && Apply(p, s, a).items[i].ticket.key == s.items[i].ticket.key
  {
    hide Shape, WithStep, Offer, Ready, Started, Cancelled;
    Below(p, max, s);
    if a.Execute? {
      var started := s.(runs := s.runs[a.run := Started(p.deps)]);
      OfferedFrom(started, a.run, Ready(p, started, a.run), false, i);
    } else if a.Handled? {
      var m, run := Move(s, a.id, Finished), s.items[a.id].ticket.key.run;
      OfferedFrom(m, run, Ready(p, s, run), true, i);
    } else if MovesTask(a) {
      TaskAdvances(p, s, a);
      TaskUnderway(p, s, a);
      hide Apply, Enabled, Underway;
    } else if a.CancelStep? && a.key in s.active {
      ActiveTask(p, max, s, a.key);
    }
  }

  // ----- Cancellations do not add work ------------------------------------------------

  ghost predicate NotMore(p: Plan, t: State, s: State) {
    || Less(p, t, s)
    || (&& |UnstartedKeys(t.runs)| == |UnstartedKeys(s.runs)|
        && Total(p, t.runs, t.items, t.next, false) == Total(p, s.runs, s.items, s.next, false)
        && Total(p, t.runs, t.items, t.next, true) == Total(p, s.runs, s.items, s.next, true))
  }

  lemma {:induction false} SameTotals(p: Plan, s: State, t: State)
    requires SameUnstarted(s.runs, t.runs) && t.next == s.next && t.items.Keys == s.items.Keys
    requires forall i :: i in s.items ==> t.items[i].(cancelRequested := false) == s.items[i].(cancelRequested := false)
    ensures NotMore(p, t, s)
  {
    SameUnstartedKeys(s.runs, t.runs);
    forall i, un | 0 <= i < s.next
      ensures Share(p, t.runs, t.items, i, un) == Share(p, s.runs, s.items, i, un)
    {
      assert i in s.items ==> t.items[i].ticket == s.items[i].ticket && t.items[i].place == s.items[i].place;
    }
    hide Share, UnstartedKeys;
    TotalSame(p, s.runs, s.items, t.runs, t.items, s.next, true);
    TotalSame(p, s.runs, s.items, t.runs, t.items, s.next, false);
  }

  lemma {:induction false} CancelNotMore(p: Plan, s: State, a: Action)
    requires Enabled(p, s, a) && (a.CancelStep? || a.CancelRun?)
    ensures NotMore(p, Apply(p, s, a), s)
  {
    var t := Apply(p, s, a);
    if a.CancelStep? {
      hide IsUnstarted, NotMore;
      SameTotals(p, s, t);
    } else {
      CancelledKeys(s, a.run);
      if key :| IsUnstarted(s.runs, key) && !IsUnstarted(t.runs, key) {
        Fewer(p, s, t, key);
      } else {
        hide NotMore, Cancelled;
        SameTotals(p, s, t);
      }
    }
  }

  lemma {:induction false} CancelledKeys(s: State, run: RunId)
    requires run in s.runs
    ensures forall key :: IsUnstarted(DoCancelRun(s, run).runs, key) ==> IsUnstarted(s.runs, key)
  {
  }

  lemma {:induction false} Fewer(p: Plan, s: State, t: State, key: Key)
    requires IsUnstarted(s.runs, key) && !IsUnstarted(t.runs, key)
    requires forall other :: IsUnstarted(t.runs, other) ==> IsUnstarted(s.runs, other)
    ensures Less(p, t, s)
  {
    var before, after := UnstartedKeys(s.runs), UnstartedKeys(t.runs);
    forall other
      ensures other in after ==> other in before && other != key
    {
      InUnstarted(s.runs, other);
      InUnstarted(t.runs, other);
    }
    InUnstarted(s.runs, key);
    SubsetCount(after + {key}, before);
  }

  // ----- No infinite work -------------------------------------------------------------

  /** `f` runs forever from position `n` on, with no new run started. */
  ghost predicate RunsFrom(p: Plan, f: nat -> State, g: nat -> Action, n: nat) {
    forall m: nat :: m >= n ==> Enabled(p, f(m), g(m)) && f(m + 1) == Apply(p, f(m), g(m)) && !g(m).Execute?
  }

  lemma {:induction false} WorkOrCancel(p: Plan, max: nat, s: State, a: Action)
    requires Shape(p, max, s) && UnderwayStarted(s.runs, s.items) && Enabled(p, s, a) && !a.Execute?
    ensures Shape(p, max, Apply(p, s, a)) && UnderwayStarted(Apply(p, s, a).runs, Apply(p, s, a).items)
    ensures NotMore(p, Apply(p, s, a), s) && (IsWorkStep(a) ==> Less(p, Apply(p, s, a), s))
  {
    hide Shape, UnderwayStarted, Apply, Less;
    ShapeStep(p, max, s, a);
    UnderwayStep(p, max, s, a);
    if IsWorkStep(a) {
      WorkDecreases(p, max, s, a);
    } else {
      CancelNotMore(p, s, a);
    }
  }

  lemma {:induction false} NotMoreLater(p: Plan, max: nat, f: nat -> State, g: nat -> Action, n: nat, m: nat)
    requires RunsFrom(p, f, g, n) && n <= m
    requires Shape(p, max, f(n)) && UnderwayStarted(f(n).runs, f(n).items)
    ensures Shape(p, max, f(m)) && UnderwayStarted(f(m).runs, f(m).items) && NotMore(p, f(m), f(n))
    decreases m
  {
    hide Shape, UnderwayStarted, Apply, Enabled, UnstartedKeys, Total;
    if m == n {
    } else {
      NotMoreLater(p, max, f, g, n, m - 1);
      assert m - 1 >= n && f(m - 1 + 1) == Apply(p, f(m - 1), g(m - 1));
      WorkOrCancel(p, max, f(m - 1), g(m - 1));
    }
  }

  /** From position `last` on, the environment alone acts: the scheduler has nothing to do. */
  ghost predicate QuietFrom(g: nat -> Action, last: nat) {
    forall m: nat :: m >= last ==> !IsWorkStep(g(m))
  }

  /** Whatever the interleaving, the scheduler makes only finitely many moves of its own. */
  lemma {:induction false} WorkEnds(p: Plan, max: nat, f: nat -> State, g: nat -> Action, n: nat)
    requires RunsFrom(p, f, g, n)
    requires Shape(p, max, f(n)) && UnderwayStarted(f(n).runs, f(n).items)
    ensures exists last: nat :: QuietFrom(g, last)
    decreases |UnstartedKeys(f(n).runs)|, Total(p, f(n).runs, f(n).items, f(n).next, false),
              Total(p, f(n).runs, f(n).items, f(n).next, true)
  {
    hide Shape, UnderwayStarted, Apply, Enabled, UnstartedKeys, Total, IsWorkStep;
    if m: nat :| m >= n && IsWorkStep(g(m)) {
      NotMoreLater(p, max, f, g, n, m);
      WorkOrCancel(p, max, f(m), g(m));
      WorkEnds(p, max, f, g, m + 1);
    } else {
      assert QuietFrom(g, n);
    }
  }

  // ----- Never stuck ------------------------------------------------------------------

  /** While any ticket is left and there is at least one permit, some transition is enabled. */
  lemma {:induction false} NeverStuck(p: Plan, max: nat, s: State) returns (a: Action)
    requires Shape(p, max, s) && max > 0 && s.items != map[]
    ensures IsWorkStep(a) && Enabled(p, s, a)
  {
    if i :| i in s.items && IsTask(s.items[i].place) {
      a := match s.items[i].place
        case Launched => Begin(i, true)
        case Announcing => Announced(i)
        case Working => Return(i)
        case Reporting => Handled(i)
        case Failing => Published(i)
        case Sleeping => Wake(i)
        case _ => Release(i);
    } else {
      assert Tasks(s.items) == {};
      if i :| i in s.items && s.items[i].place == Held {
        a := Acquire(i);
      } else {
        var i :| i in s.items;
        a := Dequeue(i);
      }
    }
  }
}
