/** What every execution of the scheduler guarantees. */
module SchedulerTheorems {
  import opened Sequences
  import opened Workflow
  import opened Digraph
  import opened DependencyEngine
  import opened WorkflowRuns
  import opened Backoff
  import opened SchedulerModel
  import opened SchedulerSafety
  import opened SchedulerOrder
  import opened SchedulerRetries
  import opened SchedulerProgress
  import opened SchedulerWork

  /** A cancelled run has no step left to offer. */
  ghost predicate CancelledInert(runs: Runs) {
    forall r, k :: r in runs && runs[r].status == RunCancelled && k in runs[r].steps ==> !Unstarted(runs[r].steps[k])
  }

  ghost predicate Invariant(p: Plan, max: nat, s: State) {
    && Shape(p, max, s) && DepSafe(p, s) && RetryOk(p, s)
    && NoLoss(p, s) && StatusSound(p, s.runs, s.log)
    && UnderwayStarted(s.runs, s.items) && CancelledInert(s.runs)
  }

  // ----- Cancelled runs ---------------------------------------------------------------

  ghost predicate StatusFrom(before: Runs, after: Runs, run: RunId) {
    forall r :: r in after && after[r].status == RunCancelled ==>
      (r in before && before[r].status == RunCancelled) || r == run
  }

  ghost predicate StaysCancelled(before: Runs, after: Runs) {
    forall r :: r in before && before[r].status == RunCancelled ==> r in after && after[r].status == RunCancelled
  }

  lemma {:induction false} RecordStatus(s: State, key: Key, st: StepStatus, run: RunId)
    ensures StatusFrom(s.runs, Record(s, key, st).runs, run) && StaysCancelled(s.runs, Record(s, key, st).runs)
  {
    var st' := Derived(if key.run in s.runs then s.runs[key.run].steps[key.step := st] else map[]);
    assert st' != RunCancelled;
    hide Derived;
  }

  lemma {:induction false} OfferStatus(s: State, run: RunId, ks: seq<StepId>, mark: bool, any: RunId)
    ensures StatusFrom(s.runs, Offer(s, run, ks, |ks|, mark).runs, any)
    ensures StaysCancelled(s.runs, Offer(s, run, ks, |ks|, mark).runs)
  {
    OfferStatuses(s, run, ks, |ks|, mark);
    hide Offer, Derived;
  }

  lemma {:induction false} StatusStep(p: Plan, s: State, a: Action, run: RunId)
    requires Enabled(p, s, a) && (a.CancelRun? ==> a.run == run)
    ensures StatusFrom(s.runs, Apply(p, s, a).runs, run) && StaysCancelled(s.runs, Apply(p, s, a).runs)
  {
    hide Recompute, Offer, Record, Ready, Started;
    match a
    case Execute(r) =>
      var started := s.(runs := s.runs[r := Started(p.deps)]);
      StartedRunning(p);
      OfferStatus(started, r, Ready(p, started, r), false, run);
    case Handled(id) =>
      OfferStatus(Move(s, id, Finished), s.items[id].ticket.key.run, Ready(p, s, s.items[id].ticket.key.run), true, run);
    case Begin(id, agentFound) =>
      RecordStatus(s, s.items[id].ticket.key, if agentFound then RUNNING else FAILED, run);
    case Return(id) => RecordStatus(s, s.items[id].ticket.key, COMPLETED, run);
    case Fail(id) => RecordStatus(s, s.items[id].ticket.key, FAILED, run);
    case Interrupt(id) => RecordStatus(s, s.items[id].ticket.key, SKIPPED, run);
    case CancelStep(_) =>
    case CancelRun(_) =>
    case Dequeue(_) =>
    case Acquire(_) =>
    case Announced(_) =>
    case Published(_) =>
    case Wake(_) =>
    case Release(_) =>
  }

  lemma {:induction false} StartedRunning(p: Plan)
    ensures Started(p.deps).status == RunRunning
  {
  }

  lemma {:induction false} InertStep(p: Plan, max: nat, s: State, a: Action)
    requires Shape(p, max, s) && CancelledInert(s.runs) && Enabled(p, s, a)
    ensures CancelledInert(Apply(p, s, a).runs)
  {
    var t := Apply(p, s, a);
    NeverBackStep(p, max, s, a);
    StatusStep(p, s, a, if a.CancelRun? then a.run else RunId(""));
    forall r, k | r in t.runs && t.runs[r].status == RunCancelled && k in t.runs[r].steps
      ensures !Unstarted(t.runs[r].steps[k])
    {
      if !a.CancelRun? {
        StatusStep(p, s, a, r);
        StatusStep(p, s, a, if r == RunId("") then RunId("a") else RunId(""));
      }
      hide Shape;
      if r in s.runs && s.runs[r].status == RunCancelled {
        assert !IsUnstarted(s.runs, Key(r, k));
        assert !IsUnstarted(t.runs, Key(r, k));
      } else {
        assert t == DoCancelRun(s, r);
      }
    }
  }

  // ----- Every reachable state --------------------------------------------------------

  lemma {:induction false} InvariantInitial(p: Plan, max: nat)
    ensures Invariant(p, max, Initial(max))
  {
    assert Tasks(map[]) == {};
  }

  lemma {:induction false} InvariantStep(p: Plan, max: nat, s: State, a: Action)
    requires WellFormed(p) && Invariant(p, max, s) && Enabled(p, s, a)
    ensures Invariant(p, max, Apply(p, s, a))
  {
    hide *;
    Unfold(p, max, s);
    ShapeStep(p, max, s, a);
    OrderStep(p, max, s, a);
    RetryStep(p, max, s, a);
    NoLossStep(p, max, s, a);
    StatusSoundStep(p, s, a);
    UnderwayStep(p, max, s, a);
    InertStep(p, max, s, a);
    Fold(p, max, Apply(p, s, a));
  }

  lemma {:induction false} Unfold(p: Plan, max: nat, s: State)
    requires Invariant(p, max, s)
    ensures Shape(p, max, s) && DepSafe(p, s) && RetryOk(p, s) && NoLoss(p, s) && StatusSound(p, s.runs, s.log)
    ensures UnderwayStarted(s.runs, s.items) && CancelledInert(s.runs)
  {
    hide Shape, DepSafe, RetryOk, NoLoss, StatusSound, UnderwayStarted, CancelledInert;
  }

  lemma {:induction false} Fold(p: Plan, max: nat, s: State)
    requires Shape(p, max, s) && DepSafe(p, s) && RetryOk(p, s) && NoLoss(p, s) && StatusSound(p, s.runs, s.log)
    requires UnderwayStarted(s.runs, s.items) && CancelledInert(s.runs)
    ensures Invariant(p, max, s)
  {
    hide Shape, DepSafe, RetryOk, NoLoss, StatusSound, UnderwayStarted, CancelledInert;
  }

  lemma {:induction false} AlwaysInvariant(p: Plan, max: nat, trace: seq<State>, acts: seq<Action>, n: nat)
    requires WellFormed(p) && IsRun(p, max, trace, acts) && n < |trace|
    ensures Invariant(p, max, trace[n])
  {
    hide Invariant, Apply, Enabled, WellFormed, Initial;
    if n == 0 {
      InvariantInitial(p, max);
    } else {
      AlwaysInvariant(p, max, trace, acts, n - 1);
      assert trace[n - 1 + 1] == Apply(p, trace[n - 1], acts[n - 1]);
      InvariantStep(p, max, trace[n - 1], acts[n - 1]);
    }
  }

  lemma {:induction false} ReachableInvariant(p: Plan, max: nat, s: State)
    requires WellFormed(p) && Reachable(p, max, s)
    ensures Invariant(p, max, s)
  {
    var trace, acts :| IsRun(p, max, trace, acts) && trace[|acts|] == s;
    hide Invariant, WellFormed;
    AlwaysInvariant(p, max, trace, acts, |acts|);
  }

  // ----- Dependency order -------------------------------------------------------------

  /** The steps of `run` in the order of their first completions among the first `n` events. */
  function FirstCompletions(log: seq<Event>, n: nat, run: RunId): seq<StepId>
    requires n <= |log|
  {
    if n == 0 then []
    else
      var done, e := FirstCompletions(log, n - 1, run), log[n - 1];
      if e.Succeeded? && e.key.run == run && e.key.step !in done then done + [e.key.step] else done
  }

  lemma {:induction false} FirstCompletionsExact(log: seq<Event>, n: nat, run: RunId)
    requires n <= |log|
    ensures NoDup(FirstCompletions(log, n, run))
    ensures forall k :: k in FirstCompletions(log, n, run) <==> Done(log[..n], Key(run, k))
  {
    if n == 0 {
    } else {
      FirstCompletionsExact(log, n - 1, run);
      assert log[..n] == log[..n - 1] + [log[n - 1]];
    }
  }

  lemma {:induction false} CompletionsLayered(p: Plan, log: seq<Event>, n: nat, run: RunId)
    requires n <= |log| && Ordered(p, log)
    ensures Layered(p.deps, FirstCompletions(log, n, run))
  {
    if n == 0 {
    } else {
      var done, e := FirstCompletions(log, n - 1, run), log[n - 1];
      CompletionsLayered(p, log, n - 1, run);
      FirstCompletionsExact(log, n - 1, run);
      assert IsWork(log[n - 1]) ==> DepsDone(p, log[..n - 1], WorkKey(log[n - 1]));
      hide Ordered, Done;
      if FirstCompletions(log, n, run) != done {
        assert (done + [e.key.step])[..|done|] == done;
        assert forall i :: 0 <= i < |done| ==> (done + [e.key.step])[..i] == done[..i];
      }
    }
  }

  /** In every execution, despite duplicate dispatch, the first completions of a run list
      exactly the steps that ever completed, once each, dependencies first; every attempt and
      every ticket in the scheduler has all its dependencies completed before it. */
  lemma {:induction false} DependencyOrder(p: Plan, max: nat, s: State, run: RunId)
    requires WellFormed(p) && Reachable(p, max, s)
    ensures NoDup(FirstCompletions(s.log, |s.log|, run)) && Layered(p.deps, FirstCompletions(s.log, |s.log|, run))
    ensures forall k :: k in FirstCompletions(s.log, |s.log|, run) <==> Done(s.log, Key(run, k))
    ensures forall n :: 0 <= n < |s.log| && s.log[n].Attempted? ==> DepsDone(p, s.log[..n], s.log[n].ticket.key)
    ensures forall i :: i in s.items ==> DepsDone(p, s.log, s.items[i].ticket.key)
  {
    ReachableInvariant(p, max, s);
    FirstCompletionsExact(s.log, |s.log|, run);
    assert s.log[..|s.log|] == s.log;
    hide Shape, RetryOk, NoLoss, StatusSound, UnderwayStarted, CancelledInert, StatusDone, DepsDone;
    CompletionsLayered(p, s.log, |s.log|, run);
    forall n | 0 <= n < |s.log| && s.log[n].Attempted?
      ensures DepsDone(p, s.log[..n], s.log[n].ticket.key)
    {
      assert IsWork(s.log[n]);
    }
  }

  // ----- Concurrency ------------------------------------------------------------------

  /** Tasks that have not ended yet. */
  ghost function Unfinished(items: Items): set<nat> {
    set i | i in items && IsTask(items[i].place) && items[i].place != Finished
  }

  /** `get_active_count`: the mapped tasks that are not done. */
  ghost function ActiveKeys(s: State): set<Key> {
    set k | k in s.active && s.active[k] in s.items && s.items[s.active[k]].place != Finished
  }

  lemma {:induction false} OneTaskPerKey(items: Items, active: map<Key, nat>, keys: set<Key>, ids: set<nat>)
    requires ActiveOk(items, active) && keys <= active.Keys && forall k :: k in keys ==> active[k] in ids
    ensures |keys| <= |ids|
    decreases |keys|
  {
    if keys == {} {
    } else {
      var k :| k in keys;
      OneTaskPerKey(items, active, keys - {k}, ids - {active[k]});
    }
  }

  /** Permits are conserved, so no more than `max` tasks ever exist, and the reported active
      count never exceeds the tasks still running. */
  lemma {:induction false} ConcurrencyBound(p: Plan, max: nat, s: State)
    requires WellFormed(p) && Reachable(p, max, s)
    ensures s.permits + |Tasks(s.items)| == max
    ensures |ActiveKeys(s)| <= |Unfinished(s.items)| <= max
  {
    ReachableInvariant(p, max, s);
    hide RunsOk, ItemsOk, OneHeld, DepSafe, RetryOk, NoLoss, StatusSound, UnderwayStarted, CancelledInert;
    assert ActiveKeys(s) <= s.active.Keys;
    OneTaskPerKey(s.items, s.active, ActiveKeys(s), Unfinished(s.items));
    SubsetCount(Unfinished(s.items), Tasks(s.items));
  }

  // ----- Retries ----------------------------------------------------------------------

  /** A chain's attempts are numbered by its retry count and stay within `retry_max` + 1; a
      failure is recorded exactly when that many attempts were made. */
  lemma {:induction false} RetryBound(p: Plan, max: nat, s: State, n: nat)
    requires WellFormed(p) && Reachable(p, max, s) && n < |s.log|
    ensures s.log[n].Attempted? ==>
              var t := s.log[n].ticket;
              Attempts(s.log, n, t.chain) == t.retryCount && Attempts(s.log, n + 1, t.chain) <= Limit(p, t.key.step) + 1
    ensures s.log[n].GaveUp? ==>
              Attempts(s.log, n, s.log[n].ticket.chain) == Limit(p, s.log[n].ticket.key.step) + 1
  {
    ReachableInvariant(p, max, s);
    hide Shape, DepSafe, NoLoss, StatusSound, UnderwayStarted, CancelledInert, CountOk, ChainsOk, LimitOk, Limit;
    assert EventOk(p, s.log, n, s.next);
  }

  /** Each retry of a chain waits 2^k seconds for the k-th time, and never more often than the
      step's limit; however the executions interleave, the logged waits of a chain add up to
      the closed form of the series. */
  lemma {:induction false} BackoffOfAChain(p: Plan, max: nat, s: State, n: nat, c: nat)
    requires WellFormed(p) && Reachable(p, max, s) && n <= |s.log|
    ensures Slept(s.log, n, c) == Power(BACKOFF_MULTIPLIER, Backoffs(s.log, n, c)) - 1.0
    ensures n < |s.log| && s.log[n].BackedOff? && s.log[n].ticket.chain == c ==>
              Backoffs(s.log, n + 1, c) == s.log[n].ticket.retryCount + 1 <= Limit(p, s.log[n].ticket.key.step)
  {
    ReachableInvariant(p, max, s);
    hide Shape, DepSafe, NoLoss, StatusSound, UnderwayStarted, CancelledInert, CountOk, ChainsOk, LimitOk, Limit;
    assert n < |s.log| ==> EventOk(p, s.log, n, s.next);
    SleptInAll(p, s.log, s.next, n, c);
    BackoffSum(BACKOFF_SECONDS, BACKOFF_MULTIPLIER, Backoffs(s.log, n, c));
  }

  // ----- No step is lost --------------------------------------------------------------

  /** Nothing queued, held, in flight, sleeping or awaiting its handler. */
  predicate Quiescent(s: State) {
    s.items == map[]
  }

  /** `v` waits, through unstarted steps only, for a step that failed. */
  ghost predicate BehindFailure(deps: Deps, steps: map<StepId, StepStatus>, v: StepId) {
    exists path :: IsPath(deps, path) && path[|path| - 1] == v && Blocked(steps, path)
  }

  predicate Blocked(steps: map<StepId, StepStatus>, path: seq<StepId>) {
    && |path| > 1 && path[0] in steps && steps[path[0]] == FAILED
    && forall i :: 0 < i < |path| ==> path[i] in steps && Unstarted(steps[path[i]])
  }

  lemma {:induction false} BehindNext(deps: Deps, steps: map<StepId, StepStatus>, v: StepId, d: StepId)
    requires v in deps && d in deps[v] && v in steps && Unstarted(steps[v]) && BehindFailure(deps, steps, d)
    ensures BehindFailure(deps, steps, v)
  {
    var path :| IsPath(deps, path) && path[|path| - 1] == d && Blocked(steps, path);
    var longer := path + [v];
    assert longer[0] == path[0] && longer[|longer| - 1] == v;
    assert IsPath(deps, longer);
    assert Blocked(steps, longer);
  }

  lemma {:induction false} BehindFailed(deps: Deps, steps: map<StepId, StepStatus>, v: StepId, d: StepId)
    requires v in deps && d in deps && d in deps[v] && v in steps && Unstarted(steps[v])
    requires d in steps && steps[d] == FAILED
    ensures BehindFailure(deps, steps, v)
  {
    assert IsPath(deps, [d, v]);
    assert [d, v][0] == d && [d, v][1] == v;
    assert Blocked(steps, [d, v]);
  }

  /** In a quiescent state a step of a run that lost nothing completed, failed, or still waits. */
  lemma {:induction false} SettledStep(p: Plan, s: State, r: RunId, v: StepId)
    requires r in s.runs && NothingLost(p, s, r) && Quiescent(s) && s.runs[r].steps.Keys == p.deps.Keys && v in p.deps
    ensures var steps := s.runs[r].steps;
            || steps[v] == COMPLETED || steps[v] == FAILED
            || (Unstarted(steps[v]) && exists d :: d in p.deps[v] && !(d in steps && steps[d] == COMPLETED))
  {
    hide Derived;
    var steps := s.runs[r].steps;
    assert !Lost(p, s, Key(r, v));
    assert !Covered(s.items, Key(r, v)) && !HandlerDue(s.items, r) && !Busy(s.items, Key(r, v));
    assert !IsReady(p.deps, steps, v);
    assert steps[v] != RUNNING && steps[v] != SKIPPED;
  }

  lemma {:induction false} SettledSteps(p: Plan, s: State, r: RunId)
    requires WellFormed(p) && Acyclic(p.deps)
    requires r in s.runs && NothingLost(p, s, r) && Quiescent(s) && s.runs[r].steps.Keys == p.deps.Keys
    ensures forall v :: v in s.runs[r].steps ==> SettledAs(p.deps, s.runs[r].steps, v)
  {
    var steps := s.runs[r].steps;
    var good := set v | v in steps && SettledAs(p.deps, steps, v);
    forall v | v in p.deps && forall d :: d in p.deps[v] ==> d in good
      ensures v in good
    {
      SettledStep(p, s, r, v);
      hide NothingLost, BehindFailure, Acyclic;
      if steps[v] != FAILED && steps[v] != COMPLETED {
        var d :| d in p.deps[v] && !(d in steps && steps[d] == COMPLETED);
        assert d in good;
        if steps[d] == FAILED {
          BehindFailed(p.deps, steps, v, d);
        } else {
          BehindNext(p.deps, steps, v, d);
        }
      }
    }
    EveryNode(p.deps, good);
  }

  /** Completed, failed, or waiting for good. */
  ghost predicate SettledAs(deps: Deps, steps: map<StepId, StepStatus>, v: StepId)
    requires v in steps
  {
    steps[v] == COMPLETED || steps[v] == FAILED || (Unstarted(steps[v]) && BehindFailure(deps, steps, v))
  }

  /** A run that has come to its end: each step is completed, failed, or waits through unstarted
      steps for a failed one, and the run is FAILED if some step failed and COMPLETED otherwise. */
  ghost predicate Settled(p: Plan, rs: RunState) {
    && rs.steps.Keys == p.deps.Keys
    && (forall v :: v in rs.steps ==> SettledAs(p.deps, rs.steps, v))
    && rs.status == if exists v :: v in rs.steps && rs.steps[v] == FAILED then RunFailed else RunCompleted
  }

  lemma {:induction false} SettledAtRest(p: Plan, s: State, r: RunId)
    requires WellFormed(p) && Acyclic(p.deps) && p.deps != map[] && Quiescent(s)
    requires r in s.runs && s.runs[r].steps.Keys == p.deps.Keys && NothingLost(p, s, r)
    ensures Settled(p, s.runs[r])
  {
    SettledSteps(p, s, r);
    var steps := s.runs[r].steps;
    assert s.runs[r].status == Derived(steps);
    hide Acyclic, WellFormed, BehindFailure, NothingLost, IsPath;
    forall v | v in steps && steps[v] != COMPLETED
      ensures exists u :: u in steps && steps[u] == FAILED
    {
      FailureBehind(p.deps, steps, v);
    }
  }

  lemma {:induction false} SettledNotReady(p: Plan, steps: map<StepId, StepStatus>, v: StepId)
    requires v in steps && SettledAs(p.deps, steps, v)
    ensures steps[v] != SKIPPED && steps[v] != RUNNING && !IsReady(p.deps, steps, v)
  {
    if Unstarted(steps[v]) {
      var path :| IsPath(p.deps, path) && path[|path| - 1] == v && Blocked(steps, path);
      assert path[|path| - 2] in p.deps[path[|path| - 1]];
      assert path[|path| - 2] in steps && steps[path[|path| - 2]] != COMPLETED;
    }
  }

  lemma {:induction false} SettledStatus(p: Plan, rs: RunState)
    requires Settled(p, rs)
    ensures rs.status == Derived(rs.steps)
  {
    forall v | v in rs.steps && rs.steps[v] != COMPLETED
      ensures exists u :: u in rs.steps && rs.steps[u] == FAILED
    {
      hide BehindFailure;
      FailureBehind(p.deps, rs.steps, v);
    }
    hide SettledAs;
  }

  /** At rest to have lost nothing and to be settled is the same. */
  lemma {:induction false} SettledIffNothingLost(p: Plan, s: State, r: RunId)
    requires WellFormed(p) && Acyclic(p.deps) && p.deps != map[] && Quiescent(s)
    requires r in s.runs && s.runs[r].steps.Keys == p.deps.Keys
    ensures Settled(p, s.runs[r]) <==> NothingLost(p, s, r)
  {
    hide WellFormed, Acyclic, Derived, BehindFailure, SettledAs;
    if NothingLost(p, s, r) {
      SettledAtRest(p, s, r);
    }
    if Settled(p, s.runs[r]) {
      SettledStatus(p, s.runs[r]);
      forall k
        ensures !Lost(p, s, Key(r, k))
      {
        if k in s.runs[r].steps {
          SettledNotReady(p, s.runs[r].steps, k);
        }
      }
    }
  }

  /** Every interleaving that comes to rest has settled every run in which no queue entry was
      dropped, no task interrupted and which was not cancelled: it is never still RUNNING. */
  lemma {:induction false} NoLostStep(p: Plan, max: nat, s: State, r: RunId)
    requires WellFormed(p) && Acyclic(p.deps) && p.deps != map[] && Reachable(p, max, s)
    requires r in s.runs && !Disturbed(s.log, r) && Quiescent(s)
    ensures Settled(p, s.runs[r])
  {
    hide *;
    ReachableRun(p, max, s, r);
    SettledAtRest(p, s, r);
  }

  lemma {:induction false} FailureBehind(deps: Deps, steps: map<StepId, StepStatus>, v: StepId)
    requires v in steps && SettledAs(deps, steps, v) && steps[v] != COMPLETED
    ensures exists u :: u in steps && steps[u] == FAILED
  {
    if steps[v] != FAILED {
      var path :| IsPath(deps, path) && path[|path| - 1] == v && Blocked(steps, path);
      assert steps[path[0]] == FAILED;
    }
  }

  lemma {:induction false} ReachableRun(p: Plan, max: nat, s: State, r: RunId)
    requires WellFormed(p) && Reachable(p, max, s) && r in s.runs
    ensures s.runs[r].steps.Keys == p.deps.Keys
    ensures !Disturbed(s.log, r) ==> NothingLost(p, s, r)
    ensures forall v :: v in s.runs[r].steps && s.runs[r].steps[v] == FAILED ==> FailedOnce(s.log, Key(r, v))
  {
    ReachableInvariant(p, max, s);
    hide ItemsOk, OneHeld, ActiveOk, PermitsOk, NothingLost, UnderwayStarted, CancelledInert;
    hide RetryOk, ItemsReady, Ordered, FailedOnce, Disturbed, Reachable;
  }

  /** Without a cancellation and without a chain that ends in failure, the run completes. */
  lemma {:induction false} UndisturbedRunCompletes(p: Plan, max: nat, s: State, r: RunId)
    requires WellFormed(p) && Acyclic(p.deps) && p.deps != map[] && Reachable(p, max, s)
    requires r in s.runs && !Disturbed(s.log, r) && Quiescent(s)
    requires forall key: Key :: key.run == r ==> !FailedOnce(s.log, key)
    ensures s.runs[r].status == RunCompleted
    ensures forall v :: v in p.deps ==> v in s.runs[r].steps && s.runs[r].steps[v] == COMPLETED
  {
    NoLostStep(p, max, s, r);
    ReachableRun(p, max, s, r);
    hide Acyclic, WellFormed, BehindFailure, NothingLost, Reachable, FailedOnce;
    var steps := s.runs[r].steps;
    forall v | v in steps
      ensures steps[v] == COMPLETED
    {
      if steps[v] != COMPLETED {
        FailureBehind(p.deps, steps, v);
        assert false;
      }
    }
  }

  // ----- Finite work ------------------------------------------------------------------

  /** An infinite execution. */
  ghost predicate Execution(p: Plan, max: nat, f: nat -> State, g: nat -> Action) {
    f(0) == Initial(max) && forall m: nat :: Enabled(p, f(m), g(m)) && f(m + 1) == Apply(p, f(m), g(m))
  }

  lemma {:induction false} ExecutionInvariant(p: Plan, max: nat, f: nat -> State, g: nat -> Action, n: nat)
    requires WellFormed(p) && Execution(p, max, f, g)
    ensures Invariant(p, max, f(n))
  {
    hide Invariant, Apply, Enabled, WellFormed, Initial;
    if n == 0 {
      InvariantInitial(p, max);
    } else {
      ExecutionInvariant(p, max, f, g, n - 1);
      assert f(n - 1 + 1) == Apply(p, f(n - 1), g(n - 1));
      InvariantStep(p, max, f(n - 1), g(n - 1));
    }
  }

  /** If finitely many runs are started, the scheduler's own transitions come to an end,
      however often steps are dispatched twice or cancelled. */
  lemma {:induction false} FiniteWork(p: Plan, max: nat, f: nat -> State, g: nat -> Action, n: nat)
    requires WellFormed(p) && Execution(p, max, f, g)
    requires forall m: nat :: m >= n ==> !g(m).Execute?
    ensures exists last: nat :: QuietFrom(g, last)
  {
    hide Apply, Enabled, WellFormed, Initial, Invariant, QuietFrom;
    ExecutionInvariant(p, max, f, g, n);
    Unfold(p, max, f(n));
    WorkEnds(p, max, f, g, n);
  }

  /** With at least one permit the scheduler has nothing left to do only when it is quiescent:
      together with `FiniteWork` and `NoLostStep`, every run is driven to its end. */
  lemma {:induction false} RestsOnlyWhenDone(p: Plan, max: nat, s: State)
    requires WellFormed(p) && Reachable(p, max, s) && max > 0
    ensures Quiescent(s) <==> forall a :: IsWorkStep(a) ==> !Enabled(p, s, a)
  {
    ReachableInvariant(p, max, s);
    Unfold(p, max, s);
    hide Shape, Invariant, Reachable, WellFormed;
    if s.items != map[] {
      var a := NeverStuck(p, max, s);
      assert IsWorkStep(a) && Enabled(p, s, a);
    }
  }

  /** A cancelled step's running task can be interrupted at once, in every reachable state and
      wherever the task is suspended; nothing else is asked to stop. */
  lemma {:induction false} CancelReachesTask(p: Plan, max: nat, s: State, key: Key)
    requires WellFormed(p) && Reachable(p, max, s) && key in ActiveKeys(s)
    ensures var t, id := Apply(p, s, CancelStep(key)), s.active[key];
            && Enabled(p, t, Interrupt(id)) && t.items[id] == s.items[id].(cancelRequested := true)
            && t.items.Keys == s.items.Keys && t.runs == s.runs
            && forall i :: i in s.items && i != id ==> t.items[i] == s.items[i]
  {
    assert key in s.active && s.active[key] in s.items && s.items[s.active[key]].place != Finished;
    hide *;
    ReachableInvariant(p, max, s);
    Unfold(p, max, s);
    ActiveTask(p, max, s, key);
    CancelAsks(p, s, key);
  }

  lemma {:induction false} CancelAsks(p: Plan, s: State, key: Key)
    requires key in s.active && s.active[key] in s.items
    requires IsTask(s.items[s.active[key]].place) && s.items[s.active[key]].place != Finished
    ensures var t, id := Apply(p, s, CancelStep(key)), s.active[key];
            && Enabled(p, t, Interrupt(id)) && t.items[id] == s.items[id].(cancelRequested := true)
            && t.items.Keys == s.items.Keys && t.runs == s.runs
            && forall i :: i in s.items && i != id ==> t.items[i] == s.items[i]
  {
  }

  // ----- After cancel_run -------------------------------------------------------------

  /** Once cancelled, a run stays cancelled, no step of it is ready, and the only ticket it can
      still get is the retry of one that already exists. */
  lemma {:induction false} CancelledForever(p: Plan, max: nat, s: State, a: Action, r: RunId)
    requires WellFormed(p) && Reachable(p, max, s) && Enabled(p, s, a)
    requires r in s.runs && s.runs[r].status == RunCancelled
    ensures var t := Apply(p, s, a);
            && r in t.runs && t.runs[r].status == RunCancelled && Ready(p, t, r) == []
            && forall i :: i in t.items && i !in s.items && t.items[i].ticket.key.run == r ==>
                 a.Wake? && t.items[i].ticket == s.items[a.id].ticket
  {
    ReachableInvariant(p, max, s);
    var t := Apply(p, s, a);
    InvariantStep(p, max, s, a);
    Unfold(p, max, s);
    Unfold(p, max, t);
    StatusStep(p, s, a, if a.CancelRun? then a.run else r);
    NothingReady(p, s, r);
    assert r in t.runs && t.runs[r].status == RunCancelled;
    NothingReady(p, t, r);
    hide Invariant, Reachable, Shape, CancelledInert, StatusFrom, StaysCancelled;
    NoNewTicket(p, max, s, a, r);
  }

  lemma {:induction false} NothingReady(p: Plan, s: State, r: RunId)
    requires r in s.runs && s.runs[r].status == RunCancelled && CancelledInert(s.runs)
    ensures Ready(p, s, r) == []
  {
    ReadyStepsExact(p.order, p.deps, s.runs[r].steps);
    hide ReadySteps;
    if Ready(p, s, r) != [] {
      HasMember(Ready(p, s, r));
    }
  }

  /** The tickets `after` has beyond those of `before` belong to another run than `r`. */
  ghost predicate NoNew(before: Items, after: Items, r: RunId) {
    forall i :: i in after && i !in before ==> after[i].ticket.key.run != r
  }

  lemma {:induction false} OfferNoNew(s: State, run: RunId, ks: seq<StepId>, mark: bool, r: RunId)
    requires run == r ==> ks == []
    requires forall i :: i in s.items ==> i < s.next
    ensures NoNew(s.items, Offer(s, run, ks, |ks|, mark).items, r)
  {
    OfferItems(s, run, ks, |ks|, mark);
    hide Offer;
  }

  lemma {:induction false} NoNewTicket(p: Plan, max: nat, s: State, a: Action, r: RunId)
    requires Shape(p, max, s) && Enabled(p, s, a) && r in s.runs && Ready(p, s, r) == []
    ensures forall i :: i in Apply(p, s, a).items && i !in s.items && Apply(p, s, a).items[i].ticket.key.run == r ==>
              a.Wake? && Apply(p, s, a).items[i].ticket == s.items[a.id].ticket
  {
    hide Shape, Ready, Offer, Started;
    Below(p, max, s);
    if a.Execute? {
      var started := s.(runs := s.runs[a.run := Started(p.deps)]);
      OfferNoNew(started, a.run, Ready(p, started, a.run), false, r);
    } else if a.Handled? {
      var run := s.items[a.id].ticket.key.run;
      OfferNoNew(Move(s, a.id, Finished), run, Ready(p, s, run), true, r);
    } else if a.CancelStep? {
      CancelStepAddsNothing(p, max, s, a.key);
    } else if !a.Wake? {
      hide Enabled, Apply;
      OthersAddNothing(p, s, a);
    }
  }

  lemma {:induction false} OthersAddNothing(p: Plan, s: State, a: Action)
    requires Enabled(p, s, a) && !a.Execute? && !a.Handled? && !a.CancelStep? && !a.Wake?
    ensures Apply(p, s, a).items.Keys <= s.items.Keys
  {
    hide WithStep;
    if MovesTask(a) {
      TaskAdvances(p, s, a);
      hide Apply;
    }
  }

  lemma {:induction false} CancelStepAddsNothing(p: Plan, max: nat, s: State, key: Key)
    requires Shape(p, max, s)
    ensures DoCancelStep(s, key).items.Keys == s.items.Keys
  {
    hide Shape;
  }
}
