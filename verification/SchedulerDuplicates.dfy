/** When a step can be queued a second time while an earlier ticket of it is still around. */
module SchedulerDuplicates {
  import opened Sequences
  import opened Workflow
  import opened Digraph
  import opened DependencyEngine
  import opened WorkflowRuns
  import opened Backoff
  import opened SchedulerModel
  import opened SchedulerSafety
  import opened SchedulerOrder
  import opened SchedulerRetries
  import opened SchedulerProgress
  import opened SchedulerWork
  import opened SchedulerTheorems

  /** Each step of each run is in the scheduler at most once, retries of the same enqueueing
      aside. */
  ghost predicate DispatchedOnce(items: Items) {
    forall i, j :: i in items && j in items && items[i].ticket.key == items[j].ticket.key ==>
      items[i].ticket.chain == items[j].ticket.chain
  }

  ghost predicate Leads(deps: Deps, u: StepId, v: StepId) {
    exists path :: IsPath(deps, path) && path[0] == u && path[|path| - 1] == v
  }

  /** Of any two steps one waits for the other, directly or not. */
  ghost predicate Linked(deps: Deps) {
    forall u, v :: u in deps && v in deps && u != v ==> Leads(deps, u, v) || Leads(deps, v, u)
  }

  // ----- One transition ---------------------------------------------------------------

  /** The handler offers a step of which a ticket is still in the scheduler. */
  ghost predicate OffersAgain(p: Plan, s: State, a: Action)
    requires Enabled(p, s, a)
  {
    && a.Handled? && s.items[a.id].ticket.key.run in s.runs
    && exists i :: i in s.items && s.items[i].ticket.key.run == s.items[a.id].ticket.key.run
                   && IsReady(p.deps, s.runs[s.items[a.id].ticket.key.run].steps, s.items[i].ticket.key.step)
  }

  /** Tickets keep key and chain, and no chain is given to a new key. */
  ghost predicate ChainsKept(before: Items, after: Items) {
    forall i :: i in after ==>
      exists j :: j in before && before[j].ticket.key == after[i].ticket.key
                  && before[j].ticket.chain == after[i].ticket.chain
  }

  lemma {:induction false} KeptOnce(before: Items, after: Items)
    requires DispatchedOnce(before) && ChainsKept(before, after)
    ensures DispatchedOnce(after)
  {
  }

  lemma {:induction false} SameTickets(before: Items, after: Items)
    requires forall i :: i in after ==>
               && i in before && after[i].ticket.key == before[i].ticket.key
               && after[i].ticket.chain == before[i].ticket.chain
    ensures ChainsKept(before, after)
  {
  }

  lemma {:induction false} WakeKeepsChains(s: State, id: nat)
    requires At(s, id, Sleeping)
    ensures ChainsKept(s.items, DoWake(s, id).items)
  {
    var t := DoWake(s, id);
    forall i | i in t.items
      ensures exists j :: j in s.items && s.items[j].ticket.key == t.items[i].ticket.key
                          && s.items[j].ticket.chain == t.items[i].ticket.chain
    {
      var j := if i == s.next then id else i;
      assert j in s.items && s.items[j].ticket == t.items[i].ticket;
    }
  }

  lemma {:induction false} TaskKeepsChain(p: Plan, s: State, a: Action)
    requires Enabled(p, s, a) && MovesTask(a)
    ensures a.id in s.items && a.id in Apply(p, s, a).items
    ensures Apply(p, s, a).items[a.id].ticket.chain == s.items[a.id].ticket.chain
  {
    hide WithStep, Delay;
  }

  lemma {:induction false} OthersKeepChains(p: Plan, max: nat, s: State, a: Action)
    requires Shape(p, max, s) && Enabled(p, s, a) && !a.Execute? && !a.Handled?
    ensures ChainsKept(s.items, Apply(p, s, a).items)
  {
    hide Shape, ChainsKept;
    if MovesTask(a) {
      TaskAdvances(p, s, a);
      TaskKeepsChain(p, s, a);
      hide Apply, Record;
      SameTickets(s.items, Apply(p, s, a).items);
    } else if a.Wake? {
      WakeKeepsChains(s, a.id);
    } else {
      if a.CancelStep? {
        CancelStepMoves(p, max, s, a.key);
      }
      hide Cancelled, DoCancelStep;
      SameTickets(s.items, Apply(p, s, a).items);
    }
  }

  /** What `Offer` adds are queued tickets with new chains, one for each listed step. */
  lemma {:induction false} OfferOnceIff(s: State, run: RunId, ks: seq<StepId>, mark: bool)
    requires DispatchedOnce(s.items) && NoDup(ks)
    requires forall i :: i in s.items ==> i < s.next && s.items[i].ticket.chain < s.next
    ensures DispatchedOnce(Offer(s, run, ks, |ks|, mark).items) <==>
            !exists i :: i in s.items && s.items[i].ticket.key.run == run && s.items[i].ticket.key.step in ks
  {
    var t := Offer(s, run, ks, |ks|, mark);
    OfferItems(s, run, ks, |ks|, mark);
    hide Offer;
    if i :| i in s.items && s.items[i].ticket.key.run == run && s.items[i].ticket.key.step in ks {
      var m :| 0 <= m < |ks| && ks[m] == s.items[i].ticket.key.step;
      assert s.next + m in t.items && i in t.items;
      assert t.items[i].ticket.chain != t.items[s.next + m].ticket.chain;
    } else {
      forall i, j | i in t.items && j in t.items && t.items[i].ticket.key == t.items[j].ticket.key
        ensures t.items[i].ticket.chain == t.items[j].ticket.chain
      {
        assert i !in s.items ==> ks[i - s.next] in ks;
        assert j !in s.items ==> ks[j - s.next] in ks;
      }
    }
  }

  lemma {:induction false} ReadyExact(p: Plan, s: State, run: RunId)
    requires WellFormed(p)
    ensures NoDup(Ready(p, s, run))
    ensures forall k :: k in Ready(p, s, run) <==> run in s.runs && IsReady(p.deps, s.runs[run].steps, k)
  {
    if run in s.runs {
      ReadyStepsExact(p.order, p.deps, s.runs[run].steps);
      hide ReadySteps;
      assert forall k :: k in p.deps ==> k in Elements(p.order);
    }
  }

  lemma {:induction false} HandledRepeats(p: Plan, max: nat, s: State, id: nat)
    requires WellFormed(p) && Shape(p, max, s) && ChainsOk(s.items, s.next) && Enabled(p, s, Handled(id))
    requires DispatchedOnce(s.items)
    ensures DispatchedOnce(DoHandled(p, s, id).items) <==> !OffersAgain(p, s, Handled(id))
  {
    var m, run := Move(s, id, Finished), s.items[id].ticket.key.run;
    hide *;
    MovedBelow(p, max, s, id);
    ReadyExact(p, s, run);
    MovedOnce(s, id);
    OfferOnceIff(m, run, Ready(p, s, run), true);
    HandledOffers(p, s, id);
    HandledIs(p, s, id);
  }

  lemma {:induction false} MovedOnce(s: State, id: nat)
    requires id in s.items && DispatchedOnce(s.items)
    ensures DispatchedOnce(Move(s, id, Finished).items)
  {
    SameTickets(s.items, Move(s, id, Finished).items);
    KeptOnce(s.items, Move(s, id, Finished).items);
  }

  lemma {:induction false} ExecuteRepeatsNothing(p: Plan, max: nat, s: State, run: RunId)
    requires WellFormed(p) && Shape(p, max, s) && ChainsOk(s.items, s.next) && run !in s.runs
    requires DispatchedOnce(s.items)
    ensures DispatchedOnce(DoExecute(p, s, run).items)
  {
    var started := s.(runs := s.runs[run := Started(p.deps)]);
    Below(p, max, s);
    NoItemsYet(p, max, s, run);
    assert forall i :: i in s.items ==> s.items[i].ticket.chain < s.next;
    hide Shape, ChainsOk, WellFormed, Ready, Offer, Started, DispatchedOnce;
    ReadyExact(p, started, run);
    OfferOnceIff(started, run, Ready(p, started, run), false);
  }

  /** Only the handler of a completed step can dispatch a step twice, and it does so exactly
      when a ready step still has a ticket. */
  lemma {:induction false} RepeatedIff(p: Plan, max: nat, s: State, a: Action)
    requires WellFormed(p) && Shape(p, max, s) && ChainsOk(s.items, s.next) && Enabled(p, s, a)
    requires DispatchedOnce(s.items)
    ensures DispatchedOnce(Apply(p, s, a).items) <==> !OffersAgain(p, s, a)
  {
    hide Shape, ChainsOk, WellFormed, DispatchedOnce, ChainsKept, DoExecute, DoHandled;
    if a.Handled? {
      HandledRepeats(p, max, s, a.id);
    } else if a.Execute? {
      ExecuteRepeatsNothing(p, max, s, a.run);
    } else {
      OthersKeepChains(p, max, s, a);
      hide Apply, Enabled;
      KeptOnce(s.items, Apply(p, s, a).items);
    }
  }

  lemma {:induction false} HandledOffers(p: Plan, s: State, id: nat)
    requires WellFormed(p) && Enabled(p, s, Handled(id))
    ensures var m, run := Move(s, id, Finished), s.items[id].ticket.key.run;
            (exists i :: i in m.items && m.items[i].ticket.key.run == run
                         && m.items[i].ticket.key.step in Ready(p, s, run)) <==> OffersAgain(p, s, Handled(id))
  {
    var m, run := Move(s, id, Finished), s.items[id].ticket.key.run;
    ReadyExact(p, s, run);
    hide Ready, IsReady;
    assert forall i :: i in m.items <==> i in s.items;
    assert forall i :: i in s.items ==> m.items[i].ticket == s.items[i].ticket;
  }

  /** `i` is a new queued ticket of the key, `j` an older one of another chain not yet begun. */
  ghost predicate Beside(before: Items, after: Items, i: nat, j: nat, key: Key) {
    && i in after && i !in before && after[i].ticket.key == key && after[i].place == Queued
    && j in after && j in before && after[j].ticket.key == key && InHand(after[j].place)
    && after[i].ticket.chain != after[j].ticket.chain
  }

  ghost predicate Doubled(before: Items, after: Items, key: Key) {
    exists i: nat, j: nat :: Beside(before, after, i, j, key)
  }

  lemma {:induction false} BesideIff(m: State, t: State, run: RunId, ready: seq<StepId>, k: StepId)
    requires NewItems(m, t, run, ready, |ready|)
    requires forall i :: i in m.items ==> i < m.next && m.items[i].ticket.chain < m.next
    ensures Doubled(m.items, t.items, Key(run, k)) <==> k in ready && Covered(m.items, Key(run, k))
  {
    if k in ready && Covered(m.items, Key(run, k)) {
      var j :| j in m.items && m.items[j].ticket.key == Key(run, k) && InHand(m.items[j].place);
      var n :| 0 <= n < |ready| && ready[n] == k;
      assert m.next + n in t.items;
      assert Beside(m.items, t.items, m.next + n, j, Key(run, k));
    }
    if i: nat, j: nat :| Beside(m.items, t.items, i, j, Key(run, k)) {
      assert ready[i - m.next] in ready;
      assert InHand(m.items[j].place);
    }
  }

  /** The handler queues a second ticket of step `k`, beside one still on its way to its
      RUNNING report, exactly if `k` is ready and has one. */
  lemma {:induction false} SecondTicketIff(p: Plan, max: nat, s: State, id: nat, k: StepId)
    requires WellFormed(p) && Shape(p, max, s) && ChainsOk(s.items, s.next) && Enabled(p, s, Handled(id))
    ensures var t, run := DoHandled(p, s, id), s.items[id].ticket.key.run;
            Doubled(s.items, t.items, Key(run, k)) <==>
            run in s.runs && IsReady(p.deps, s.runs[run].steps, k) && Covered(s.items, Key(run, k))
  {
    var run := s.items[id].ticket.key.run;
    var m, ready := Move(s, id, Finished), Ready(p, s, run);
    hide *;
    MovedBelow(p, max, s, id);
    ReadyExact(p, s, run);
    OfferItems(m, run, ready, |ready|, true);
    BesideIff(m, Offer(m, run, ready, |ready|, true), run, ready, k);
    SameCover(s.items, id, Key(run, k));
    SameBeside(s.items, id, Offer(m, run, ready, |ready|, true).items, Key(run, k));
    HandledIs(p, s, id);
  }

  lemma {:induction false} MovedBelow(p: Plan, max: nat, s: State, id: nat)
    requires Shape(p, max, s) && ChainsOk(s.items, s.next) && Enabled(p, s, Handled(id))
    ensures var m := Move(s, id, Finished);
            && m.items == s.items[id := s.items[id].(place := Finished)] && !InHand(s.items[id].place)
            && forall i :: i in m.items ==> i < m.next && m.items[i].ticket.chain < m.next
  {
    Below(p, max, s);
    hide Shape;
  }

  lemma {:induction false} HandledIs(p: Plan, s: State, id: nat)
    requires id in s.items
    ensures var run := s.items[id].ticket.key.run; var ready := Ready(p, s, run);
            DoHandled(p, s, id) == Offer(Move(s, id, Finished), run, ready, |ready|, true)
  {
  }

  lemma {:induction false} SameBeside(items: Items, id: nat, after: Items, key: Key)
    requires id in items
    ensures Doubled(items[id := items[id].(place := Finished)], after, key) == Doubled(items, after, key)
  {
    var moved := items[id := items[id].(place := Finished)];
    if i: nat, j: nat :| Beside(items, after, i, j, key) {
      assert Beside(moved, after, i, j, key);
    }
    if i: nat, j: nat :| Beside(moved, after, i, j, key) {
      assert Beside(items, after, i, j, key);
    }
  }

  lemma {:induction false} SameCover(items: Items, id: nat, key: Key)
    requires id in items && !InHand(items[id].place)
    ensures Covered(items[id := items[id].(place := Finished)], key) == Covered(items, key)
  {
    var after := items[id := items[id].(place := Finished)];
    if i :| i in items && items[i].ticket.key == key && InHand(items[i].place) {
      assert i in after;
    }
    if i :| i in after && after[i].ticket.key == key && InHand(after[i].place) {
      assert i in items;
    }
  }

  // ----- Linked steps are never dispatched twice --------------------------------------

  /** A step that completed once has left the unstarted statuses. */
  ghost predicate DoneStarted(runs: Runs, log: seq<Event>) {
    forall key :: Done(log, key) ==> key.run in runs && !IsUnstarted(runs, key)
  }

  lemma {:induction false} NewlyDone(p: Plan, s: State, a: Action, key: Key)
    requires Enabled(p, s, a) && Done(Apply(p, s, a).log, key) && !Done(s.log, key)
    ensures a.Return? && key == s.items[a.id].ticket.key
  {
    hide WithStep, Derived;
    if a.Execute? || a.Handled? {
      hide Apply;
      OfferKept(p, s, a);
    }
  }

  lemma {:induction false} ReturnStarts(p: Plan, max: nat, s: State, id: nat)
    requires Shape(p, max, s) && Enabled(p, s, Return(id))
    ensures var key := s.items[id].ticket.key;
            key.run in DoReturn(s, id).runs && !IsUnstarted(DoReturn(s, id).runs, key)
  {
    StepKnown(p, max, s, id);
    hide Shape;
    RecordStarted(s, s.items[id].ticket.key, COMPLETED);
  }

  lemma {:induction false} DoneStartedStep(p: Plan, max: nat, s: State, a: Action)
    requires Shape(p, max, s) && DoneStarted(s.runs, s.log) && Enabled(p, s, a)
    ensures DoneStarted(Apply(p, s, a).runs, Apply(p, s, a).log)
  {
    var t := Apply(p, s, a);
    NeverBackStep(p, max, s, a);
    LogKept(p, s, a);
    hide Shape, Apply, Done, Enabled, IsUnstarted;
    forall key | Done(t.log, key)
      ensures key.run in t.runs && !IsUnstarted(t.runs, key)
    {
      if !Done(s.log, key) {
        NewlyDone(p, s, a, key);
        ReturnStartsStep(p, max, s, a);
      }
    }
  }

  lemma {:induction false} ReturnStartsStep(p: Plan, max: nat, s: State, a: Action)
    requires Shape(p, max, s) && Enabled(p, s, a) && a.Return?
    ensures var key := s.items[a.id].ticket.key;
            key.run in Apply(p, s, a).runs && !IsUnstarted(Apply(p, s, a).runs, key)
  {
    hide Shape, DoReturn;
    ReturnStarts(p, max, s, a.id);
  }

  /** What a completed step waited for has completed as well. */
  lemma {:induction false} DoneDeps(p: Plan, log: seq<Event>, run: RunId, v: StepId, d: StepId)
    requires Ordered(p, log) && Done(log, Key(run, v))
    ensures v in p.deps && (d in p.deps[v] ==> Done(log, Key(run, d)))
  {
    var n :| 0 <= n < |log| && log[n] == Succeeded(Key(run, v));
    assert IsWork(log[n]) && DepsDone(p, log[..n], Key(run, v));
  }

  /** If everything the end of a path waits for has completed, so has its start. */
  lemma {:induction false} PathDone(p: Plan, log: seq<Event>, run: RunId, path: seq<StepId>)
    requires Ordered(p, log) && IsPath(p.deps, path) && |path| > 1
    requires forall d :: d in p.deps[path[|path| - 1]] ==> Done(log, Key(run, d))
    ensures Done(log, Key(run, path[0]))
  {
    hide Ordered, Done;
    var d := path[|path| - 2];
    assert d in p.deps[path[|path| - 1]];
    if |path| <= 2 {
    } else {
      forall e | e in p.deps[d]
        ensures Done(log, Key(run, e))
      {
        DoneDeps(p, log, run, d, e);
      }
      PathDone(p, log, run, path[..|path| - 1]);
    }
  }

  lemma {:induction false} ReadyAfter(p: Plan, s: State, run: RunId, u: StepId, v: StepId)
    requires DepSafe(p, s) && DoneStarted(s.runs, s.log) && run in s.runs && Leads(p.deps, u, v) && u != v
    requires IsReady(p.deps, s.runs[run].steps, v)
    ensures !IsUnstarted(s.runs, Key(run, u))
  {
    var path :| IsPath(p.deps, path) && path[0] == u && path[|path| - 1] == v;
    assert forall d :: d in p.deps[v] ==> Done(s.log, Key(run, d));
    hide Done, IsPath, DepsDone;
    PathDone(p, s.log, run, path);
  }

  /** Of linked steps at most one is ready at a time. */
  lemma {:induction false} OneReady(p: Plan, s: State, run: RunId)
    requires WellFormed(p) && Linked(p.deps) && DepSafe(p, s) && DoneStarted(s.runs, s.log)
    ensures |Ready(p, s, run)| <= 1
  {
    var ready := Ready(p, s, run);
    ReadyExact(p, s, run);
    hide WellFormed, Ready, DepSafe, DoneStarted, Leads;
    if |ready| > 1 {
      assert ready[0] in ready && ready[1] in ready && ready[0] != ready[1];
      OneOfTwo(p, s, run, ready[0], ready[1]);
    }
  }

  lemma {:induction false} OneOfTwo(p: Plan, s: State, run: RunId, u: StepId, v: StepId)
    requires Linked(p.deps) && DepSafe(p, s) && DoneStarted(s.runs, s.log) && run in s.runs && u != v
    ensures !(IsReady(p.deps, s.runs[run].steps, u) && IsReady(p.deps, s.runs[run].steps, v))
  {
    var steps := s.runs[run].steps;
    assert forall k :: IsReady(p.deps, steps, k) ==> k in p.deps && IsUnstarted(s.runs, Key(run, k));
    hide DepSafe, DoneStarted, Leads, IsReady, IsUnstarted;
    if IsReady(p.deps, steps, u) && IsReady(p.deps, steps, v) {
      if Leads(p.deps, u, v) {
        ReadyAfter(p, s, run, u, v);
      } else {
        ReadyAfter(p, s, run, v, u);
      }
      assert false;
    }
  }

  ghost predicate Left(items: Items, i: nat, run: RunId) {
    i in items && items[i].place != Finished && items[i].ticket.key.run == run
  }

  /** A run has at most one ticket that is not finished. */
  ghost predicate OneLeft(items: Items) {
    forall i, j, r :: Left(items, i, r) && Left(items, j, r) ==> i == j
  }

  /** While a run has a ticket that is not finished, the finished ones have left the unstarted
      statuses: an interrupt before the first report ends its run's only line of work. */
  ghost predicate RestStarted(runs: Runs, items: Items) {
    forall i, j :: j in items && items[j].place == Finished && Left(items, i, items[j].ticket.key.run) ==>
      !IsUnstarted(runs, items[j].ticket.key)
  }

  ghost predicate InLine(runs: Runs, items: Items) {
    && OneLeft(items) && RestStarted(runs, items)
    && forall i :: i in items ==> items[i].ticket.key.run in runs
  }

  lemma {:induction false} ReplaceInLine(runs: Runs, items: Items, later: Runs, id: nat, item: Item)
    requires InLine(runs, items) && NeverBack(runs, later) && runs.Keys <= later.Keys
    requires id in items && items[id].place != Finished && item.ticket.key == items[id].ticket.key
    ensures InLine(later, items[id := item])
  {
    hide IsUnstarted;
    var after := items[id := item];
    assert Left(items, id, items[id].ticket.key.run);
    assert forall i, r :: Left(after, i, r) ==> Left(items, i, r);
    forall i, j | j in after && after[j].place == Finished && Left(after, i, after[j].ticket.key.run)
      ensures !IsUnstarted(later, after[j].ticket.key)
    {
    }
  }

  lemma {:induction false} FewerInLine(runs: Runs, items: Items, after: Items, later: Runs)
    requires InLine(runs, items) && NeverBack(runs, later) && runs.Keys <= later.Keys
    requires forall i :: i in after ==>
               i in items && after[i].ticket.key == items[i].ticket.key && after[i].place == items[i].place
    ensures InLine(later, after)
  {
    hide IsUnstarted;
    assert forall i, r :: Left(after, i, r) ==> Left(items, i, r);
  }

  /** The run's one ticket hands over to a single new one. */
  ghost predicate HandsOver(items: Items, after: Items, id: nat, n: nat) {
    && id in items && id in after && after[id] == items[id].(place := Finished)
    && (forall i :: i in items && i != id ==> i in after && after[i] == items[i])
    && (forall i :: i in after && i !in items ==> i == n && after[i].ticket.key.run == items[id].ticket.key.run)
  }

  lemma {:induction false} NextInLine(runs: Runs, items: Items, after: Items, later: Runs, id: nat, n: nat)
    requires InLine(runs, items) && NeverBack(runs, later) && runs.Keys <= later.Keys
    requires HandsOver(items, after, id, n) && Underway(items[id].place) && !IsUnstarted(runs, items[id].ticket.key)
    ensures InLine(later, after)
  {
    hide IsUnstarted;
    var run := items[id].ticket.key.run;
    assert Left(items, id, run);
    forall i, r | Left(after, i, r) && i in items
      ensures Left(items, i, r) && r != run
    {
      assert i != id;
      assert Left(items, i, r);
    }
    assert forall i, r :: Left(after, i, r) && i !in items ==> i == n && r == run;
    forall i, j | j in after && after[j].place == Finished && Left(after, i, after[j].ticket.key.run)
      ensures !IsUnstarted(later, after[j].ticket.key)
    {
      assert j in items ==> j == id || items[j].place == Finished;
    }
  }

  /** A run gets its first ticket. */
  lemma {:induction false} FirstInLine(runs: Runs, items: Items, after: Items, later: Runs, run: RunId, n: nat)
    requires InLine(runs, items) && NeverBack(runs, later) && runs.Keys <= later.Keys && run in later
    requires forall i :: i in items ==> i in after && after[i] == items[i] && items[i].ticket.key.run != run
    requires forall i :: i in after && i !in items ==> i == n && after[i].place == Queued && after[i].ticket.key.run == run
    ensures InLine(later, after)
  {
    hide IsUnstarted;
    assert forall i, r :: Left(after, i, r) && i in items ==> Left(items, i, r) && r != run;
    assert forall i, r :: Left(after, i, r) && i !in items ==> i == n && r == run;
  }

  /** What a run of linked steps keeps beside the general invariant. */
  ghost predicate SingleFile(s: State) {
    DoneStarted(s.runs, s.log) && InLine(s.runs, s.items) && DispatchedOnce(s.items)
  }

  lemma {:induction false} TaskLive(p: Plan, s: State, a: Action)
    requires Enabled(p, s, a) && MovesTask(a)
    ensures a.id in s.items && s.items[a.id].place != Finished
  {
  }

  lemma {:induction false} StartedAt(s: State, id: nat)
    requires UnderwayStarted(s.runs, s.items) && id in s.items && Underway(s.items[id].place)
    ensures !IsUnstarted(s.runs, s.items[id].ticket.key)
  {
    hide IsUnstarted;
  }

  lemma {:induction false} WakeHandsOver(s: State, id: nat)
    requires At(s, id, Sleeping) && s.next !in s.items
    ensures HandsOver(s.items, DoWake(s, id).items, id, s.next) && Underway(s.items[id].place)
    ensures DoWake(s, id).runs == s.runs
  {
  }

  lemma {:induction false} WakeInLine(p: Plan, max: nat, s: State, id: nat)
    requires Shape(p, max, s) && UnderwayStarted(s.runs, s.items) && InLine(s.runs, s.items) && At(s, id, Sleeping)
    ensures InLine(DoWake(s, id).runs, DoWake(s, id).items)
  {
    assert id in s.items;
    hide *;
    StepKnown(p, max, s, id);
    WakeHandsOver(s, id);
    StartedAt(s, id);
    NeverBackSame(s.runs);
    NextInLine(s.runs, s.items, DoWake(s, id).items, s.runs, id, s.next);
  }

  lemma {:induction false} NeverBackSame(runs: Runs)
    ensures NeverBack(runs, runs)
  {
  }

  lemma {:induction false} OfferHandsOver(items: Items, id: nat, m: State, t: State, run: RunId, ks: seq<StepId>)
    requires id in items && items[id].ticket.key.run == run && m.items == items[id := items[id].(place := Finished)]
    requires NewItems(m, t, run, ks, |ks|) && |ks| <= 1
    ensures HandsOver(items, t.items, id, m.next)
  {
  }

  lemma {:induction false} MovedAt(p: Plan, max: nat, s: State, id: nat)
    requires Shape(p, max, s) && At(s, id, Reporting)
    ensures var m := Move(s, id, Finished);
            && m.items == s.items[id := s.items[id].(place := Finished)] && m.next == s.next
            && forall i :: i in m.items ==> i < m.next
    ensures Underway(s.items[id].place)
  {
    Below(p, max, s);
    hide Shape;
  }

  lemma {:induction false} HandledHandsOver(p: Plan, max: nat, s: State, id: nat)
    requires Shape(p, max, s) && At(s, id, Reporting) && |Ready(p, s, s.items[id].ticket.key.run)| <= 1
    ensures HandsOver(s.items, DoHandled(p, s, id).items, id, s.next) && Underway(s.items[id].place)
  {
    assert id in s.items;
    var run := s.items[id].ticket.key.run;
    var m, ready := Move(s, id, Finished), Ready(p, s, run);
    hide *;
    MovedAt(p, max, s, id);
    OfferItems(m, run, ready, |ready|, true);
    HandledIs(p, s, id);
    OfferHandsOver(s.items, id, m, DoHandled(p, s, id), run, ready);
  }

  lemma {:induction false} HandledInLine(p: Plan, max: nat, s: State, a: Action)
    requires Shape(p, max, s) && UnderwayStarted(s.runs, s.items) && InLine(s.runs, s.items) && Enabled(p, s, a)
    requires a.Handled? && |Ready(p, s, s.items[a.id].ticket.key.run)| <= 1
    ensures InLine(Apply(p, s, a).runs, Apply(p, s, a).items)
  {
    assert At(s, a.id, Reporting) && a.id in s.items && Apply(p, s, a) == DoHandled(p, s, a.id);
    hide *;
    HandledHandsOver(p, max, s, a.id);
    StartedAt(s, a.id);
    NeverBackStep(p, max, s, a);
    LogKept(p, s, a);
    NextInLine(s.runs, s.items, DoHandled(p, s, a.id).items, Apply(p, s, a).runs, a.id, s.next);
  }

  lemma {:induction false} ExecuteInLine(p: Plan, max: nat, s: State, a: Action)
    requires Shape(p, max, s) && InLine(s.runs, s.items) && Enabled(p, s, a) && a.Execute?
    requires |Ready(p, s.(runs := s.runs[a.run := Started(p.deps)]), a.run)| <= 1
    ensures InLine(Apply(p, s, a).runs, Apply(p, s, a).items)
  {
    var started := s.(runs := s.runs[a.run := Started(p.deps)]);
    var ready := Ready(p, started, a.run);
    Below(p, max, s);
    NoItemsYet(p, max, s, a.run);
    hide Shape, Ready, Offer, InLine, Started;
    OfferItems(started, a.run, ready, |ready|, false);
    NeverBackStep(p, max, s, a);
    LogKept(p, s, a);
    FirstInLine(s.runs, s.items, Apply(p, s, a).items, Apply(p, s, a).runs, a.run, s.next);
  }

  lemma {:induction false} OthersInLine(p: Plan, max: nat, s: State, a: Action)
    requires Shape(p, max, s) && UnderwayStarted(s.runs, s.items) && InLine(s.runs, s.items) && Enabled(p, s, a)
    requires !a.Execute? && !a.Handled? && !a.Wake?
    ensures InLine(Apply(p, s, a).runs, Apply(p, s, a).items)
  {
    var t := Apply(p, s, a);
    NeverBackStep(p, max, s, a);
    LogKept(p, s, a);
    hide Shape, InLine, NeverBack, UnderwayStarted, WithStep;
    if MovesTask(a) {
      TaskAdvances(p, s, a);
      TaskLive(p, s, a);
      hide Apply, Enabled;
      ReplaceInLine(s.runs, s.items, t.runs, a.id, t.items[a.id]);
    } else if a.CancelStep? {
      CancelStepMoves(p, max, s, a.key);
      hide DoCancelStep;
      FewerInLine(s.runs, s.items, t.items, t.runs);
    } else if a.Acquire? || (a.Dequeue? && s.items[a.id].ticket.key !in s.tombstones) {
      ReplaceInLine(s.runs, s.items, t.runs, a.id, t.items[a.id]);
    } else {
      hide Cancelled;
      FewerInLine(s.runs, s.items, t.items, t.runs);
    }
  }

  lemma {:induction false} InLineStep(p: Plan, max: nat, s: State, a: Action)
    requires WellFormed(p) && Linked(p.deps) && Invariant(p, max, s) && SingleFile(s) && Enabled(p, s, a)
    ensures InLine(Apply(p, s, a).runs, Apply(p, s, a).items)
  {
    Unfold(p, max, s);
    hide Shape, InLine, Invariant, WellFormed, Linked, Ready, DispatchedOnce, DoneStarted, Started, UnderwayStarted;
    hide DoExecute, DoHandled, DoWake, DepSafe;
    if a.Execute? {
      StartedInLine(p, s, a.run);
      OneReady(p, s.(runs := s.runs[a.run := Started(p.deps)]), a.run);
      ExecuteInLine(p, max, s, a);
    } else if a.Handled? {
      OneReady(p, s, s.items[a.id].ticket.key.run);
      HandledInLine(p, max, s, a);
    } else if a.Wake? {
      WakeInLine(p, max, s, a.id);
    } else {
      hide Enabled, Apply;
      OthersInLine(p, max, s, a);
    }
  }

  lemma {:induction false} StartedInLine(p: Plan, s: State, run: RunId)
    requires DepSafe(p, s) && DoneStarted(s.runs, s.log) && run !in s.runs
    ensures var started := s.(runs := s.runs[run := Started(p.deps)]);
            DepSafe(p, started) && DoneStarted(started.runs, started.log)
  {
    StartedSafe(p, s, run);
    hide DepSafe, Done, Started;
  }

  lemma {:induction false} AllStarted(s: State, id: nat)
    requires InLine(s.runs, s.items) && UnderwayStarted(s.runs, s.items) && At(s, id, Reporting)
    ensures forall i :: i in s.items && s.items[i].ticket.key.run == s.items[id].ticket.key.run ==>
              !IsUnstarted(s.runs, s.items[i].ticket.key)
  {
    hide IsUnstarted;
    var run := s.items[id].ticket.key.run;
    assert Left(s.items, id, run) && Underway(s.items[id].place);
    forall i | i in s.items && s.items[i].ticket.key.run == run
      ensures !IsUnstarted(s.runs, s.items[i].ticket.key)
    {
      if s.items[i].place != Finished {
        assert Left(s.items, i, run);
      }
    }
  }

  /** A ready step has no ticket left when the one task of its run hands over. */
  lemma {:induction false} NothingTwice(p: Plan, s: State, a: Action)
    requires InLine(s.runs, s.items) && UnderwayStarted(s.runs, s.items) && Enabled(p, s, a)
    ensures !OffersAgain(p, s, a)
  {
    hide InLine, UnderwayStarted;
    if a.Handled? {
      AllStarted(s, a.id);
    }
  }

  lemma {:induction false} SingleFileStep(p: Plan, max: nat, s: State, a: Action)
    requires WellFormed(p) && Linked(p.deps) && Invariant(p, max, s) && SingleFile(s) && Enabled(p, s, a)
    ensures SingleFile(Apply(p, s, a))
  {
    hide *;
    Unfold(p, max, s);
    OpenSingleFile(s);
    InLineStep(p, max, s, a);
    DoneStartedStep(p, max, s, a);
    NothingTwice(p, s, a);
    ChainsAt(p, s);
    RepeatedIff(p, max, s, a);
    CloseSingleFile(Apply(p, s, a));
  }

  lemma {:induction false} ChainsAt(p: Plan, s: State)
    requires RetryOk(p, s)
    ensures ChainsOk(s.items, s.next)
  {
    hide CountOk, ChainsOk, LogOk, LimitOk;
  }

  lemma {:induction false} OpenSingleFile(s: State)
    requires SingleFile(s)
    ensures DoneStarted(s.runs, s.log) && InLine(s.runs, s.items) && DispatchedOnce(s.items)
  {
    hide DoneStarted, InLine, DispatchedOnce;
  }

  lemma {:induction false} CloseSingleFile(s: State)
    requires DoneStarted(s.runs, s.log) && InLine(s.runs, s.items) && DispatchedOnce(s.items)
    ensures SingleFile(s)
  {
    hide DoneStarted, InLine, DispatchedOnce;
  }

  lemma {:induction false} SingleFileAt(p: Plan, max: nat, trace: seq<State>, acts: seq<Action>, n: nat)
    requires WellFormed(p) && Linked(p.deps) && IsRun(p, max, trace, acts) && n < |trace|
    ensures SingleFile(trace[n])
  {
    hide Invariant, Apply, Enabled, WellFormed, Linked;
    if n == 0 {
      assert trace[0] == Initial(max);
    } else {
      hide Initial, SingleFile;
      SingleFileAt(p, max, trace, acts, n - 1);
      AlwaysInvariant(p, max, trace, acts, n - 1);
      assert trace[n - 1 + 1] == Apply(p, trace[n - 1], acts[n - 1]);
      SingleFileStep(p, max, trace[n - 1], acts[n - 1]);
    }
  }

  /** In every reachable state of a plan with linked steps a run has at most one ready step. */
  lemma {:induction false} AtMostOneReady(p: Plan, max: nat, s: State, run: RunId)
    requires WellFormed(p) && Linked(p.deps) && Reachable(p, max, s)
    ensures |Ready(p, s, run)| <= 1
  {
    var trace, acts :| IsRun(p, max, trace, acts) && trace[|acts|] == s;
    hide *;
    SingleFileAt(p, max, trace, acts, |acts|);
    OpenSingleFile(s);
    ReachableInvariant(p, max, s);
    Unfold(p, max, s);
    OneReady(p, s, run);
  }

  /** If of any two steps one waits for the other, no execution dispatches a step twice. */
  lemma {:induction false} LinkedIsOnce(p: Plan, max: nat, s: State)
    requires WellFormed(p) && Linked(p.deps) && Reachable(p, max, s)
    ensures DispatchedOnce(s.items)
  {
    var trace, acts :| IsRun(p, max, trace, acts) && trace[|acts|] == s;
    hide WellFormed, Linked, DispatchedOnce, DoneStarted, InLine;
    SingleFileAt(p, max, trace, acts, |acts|);
  }
}
