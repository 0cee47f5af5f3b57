/** The scheduler's main guarantees in nothing but the terms of its state and its history. */
module SchedulerPromises {
  import opened Workflow
  import opened Digraph
  import opened WorkflowRuns
  import opened Backoff
  import opened SchedulerModel
  import opened SchedulerSafety
  import opened SchedulerOrder
  import opened SchedulerRetries
  import opened SchedulerProgress
  import opened SchedulerWork
  import opened SchedulerTheorems

  /** An agent is only ever called for a step all of whose dependencies have succeeded before. */
  lemma {:induction false} DependenciesFirst(p: Plan, max: nat, s: State, n: nat, d: StepId)
    requires WellFormed(p) && Reachable(p, max, s) && n < |s.log| && s.log[n].Attempted?
    ensures s.log[n].ticket.key.step in p.deps
    ensures d in p.deps[s.log[n].ticket.key.step] ==>
              exists m :: 0 <= m < n && s.log[m] == Succeeded(Key(s.log[n].ticket.key.run, d))
  {
    DependencyOrder(p, max, s, s.log[n].ticket.key.run);
    hide Reachable, WellFormed, FirstCompletions;
    assert DepsDone(p, s.log[..n], s.log[n].ticket.key);
  }

  /** Free permits and tasks, also those that sleep before a retry, make up the limit. */
  lemma {:induction false} TasksWithinLimit(p: Plan, max: nat, s: State)
    requires WellFormed(p) && Reachable(p, max, s)
    ensures s.permits + |set i | i in s.items && s.items[i].place != Queued && s.items[i].place != Held| == max
    ensures |set k | k in s.active && s.active[k] in s.items && s.items[s.active[k]].place != Finished| <= max
  {
    ConcurrencyBound(p, max, s);
    assert Tasks(s.items) == set i | i in s.items && s.items[i].place != Queued && s.items[i].place != Held;
    hide Reachable, WellFormed;
  }

  lemma {:induction false} TallyCounts(log: seq<Event>, n: nat, c: nat)
    requires n <= |log|
    ensures Attempts(log, n, c) == |set m | 0 <= m < n && log[m].Attempted? && log[m].ticket.chain == c|
    decreases n
  {
    var all := set m | 0 <= m < n && log[m].Attempted? && log[m].ticket.chain == c;
    if n == 0 {
      assert all == {};
    } else {
      TallyCounts(log, n - 1, c);
      var before := set m | 0 <= m < n - 1 && log[m].Attempted? && log[m].ticket.chain == c;
      var own := if log[n - 1].Attempted? && log[n - 1].ticket.chain == c then {n - 1} else {};
      assert all == before + own;
    }
  }

  /** Before any attempt its chain made at most `retry_max` attempts, and it fails for good exactly
      when it has made one more than that. */
  lemma {:induction false} AttemptsWithinLimit(p: Plan, max: nat, s: State, n: nat)
    requires WellFormed(p) && Reachable(p, max, s) && n < |s.log|
    requires s.log[n].Attempted? || s.log[n].GaveUp?
    ensures var t, limit := s.log[n].ticket, MaxRetries(p, s.log[n].ticket.key.step);
            var made := |set m | 0 <= m < n && s.log[m].Attempted? && s.log[m].ticket.chain == t.chain|;
            && (s.log[n].Attempted? ==> made == t.retryCount && (made <= limit || made == 0))
            && (s.log[n].GaveUp? ==> made == if limit > 0 then limit + 1 else 1)
  {
    RetryBound(p, max, s, n);
    TallyCounts(s.log, n, s.log[n].ticket.chain);
    hide Reachable, WellFormed;
    if s.log[n].Attempted? {
      assert Attempts(s.log, n + 1, s.log[n].ticket.chain) == Attempts(s.log, n, s.log[n].ticket.chain) + 1;
    }
  }

  /** The delays double from one second. */
  lemma {:induction false} DelaysDouble(k: nat)
    ensures Delay(BACKOFF_SECONDS, BACKOFF_MULTIPLIER, 0) == 1.0
    ensures Delay(BACKOFF_SECONDS, BACKOFF_MULTIPLIER, k + 1) == 2.0 * Delay(BACKOFF_SECONDS, BACKOFF_MULTIPLIER, k)
  {
    DelayNext(BACKOFF_SECONDS, BACKOFF_MULTIPLIER, k + 1);
  }

  /** What a settled run looks like: a step that neither completed nor failed has not started, and
      a chain of unstarted dependencies leads from it to a failed step. */
  lemma {:induction false} SettledMeans(p: Plan, rs: RunState, v: StepId)
    requires Settled(p, rs) && v in p.deps
    ensures rs.steps.Keys == p.deps.Keys
    ensures rs.status == RunFailed <==> exists k :: k in rs.steps && rs.steps[k] == FAILED
    ensures rs.status != RunFailed ==> rs.status == RunCompleted && rs.steps[v] == COMPLETED
    ensures rs.steps[v] != COMPLETED && rs.steps[v] != FAILED ==>
              && (rs.steps[v] == PENDING || rs.steps[v] == WAITING || rs.steps[v] == READY)
              && exists w: seq<StepId> ::
                   && |w| > 1 && w[|w| - 1] == v && w[0] in rs.steps && rs.steps[w[0]] == FAILED
                   && forall i, j :: 0 <= i < j < |w| && j == i + 1 ==>
                        && w[j] in p.deps && w[i] in p.deps[w[j]]
                        && (rs.steps[w[j]] == PENDING || rs.steps[w[j]] == WAITING || rs.steps[w[j]] == READY)
  {
    assert SettledAs(p.deps, rs.steps, v);
    if rs.steps[v] != COMPLETED && rs.steps[v] != FAILED {
      var w :| IsPath(p.deps, w) && w[|w| - 1] == v && Blocked(rs.steps, w);
      assert |w| > 1 && w[0] in rs.steps && rs.steps[w[0]] == FAILED;
    }
  }

  /** Whatever the interleaving: when the scheduler is at rest, a run that was not withdrawn, none
      of whose queue entries was dropped and none of whose tasks was interrupted has completed
      with every step of it, or it has failed with a step, and what has not started waits for a
      failed step. */
  lemma {:induction false} NoStepIsForgotten(p: Plan, max: nat, s: State, r: RunId, v: StepId)
    requires WellFormed(p) && Acyclic(p.deps) && Reachable(p, max, s) && r in s.runs && v in p.deps && s.items == map[]
    requires forall e :: e in s.log ==>
               e != RunWithdrawn(r) && (e.Dropped? || e.Interrupted? ==> e.ticket.key.run != r)
    ensures var rs := s.runs[r];
            && rs.steps.Keys == p.deps.Keys
            && (rs.status == RunFailed <==> exists k :: k in rs.steps && rs.steps[k] == FAILED)
            && (rs.status != RunFailed ==> rs.status == RunCompleted && rs.steps[v] == COMPLETED)
            && (rs.steps[v] != COMPLETED && rs.steps[v] != FAILED ==>
                  && (rs.steps[v] == PENDING || rs.steps[v] == WAITING || rs.steps[v] == READY)
                  && exists w: seq<StepId> ::
                       && |w| > 1 && w[|w| - 1] == v && w[0] in rs.steps && rs.steps[w[0]] == FAILED
                       && forall i, j :: 0 <= i < j < |w| && j == i + 1 ==>
                            && w[j] in p.deps && w[i] in p.deps[w[j]]
                            && (rs.steps[w[j]] == PENDING || rs.steps[w[j]] == WAITING || rs.steps[w[j]] == READY))
  {
    assert !Disturbed(s.log, r);
    assert Quiescent(s);
    hide *;
    NoLostStep(p, max, s, r);
    SettledMeans(p, s.runs[r], v);
  }

  /** In every infinite execution with finitely many runs, from some point on nothing happens but
      requests from outside. */
  lemma {:induction false} OnlyRequestsForever(p: Plan, max: nat, f: nat -> State, g: nat -> Action, n: nat)
    returns (last: nat)
    requires WellFormed(p) && f(0) == Initial(max)
    requires forall m: nat :: Enabled(p, f(m), g(m)) && f(m + 1) == Apply(p, f(m), g(m))
    requires forall m: nat :: m >= n ==> !g(m).Execute?
    ensures forall m: nat :: m >= last ==> g(m).CancelStep? || g(m).CancelRun?
  {
    assert Execution(p, max, f, g);
    FiniteWork(p, max, f, g, n);
    hide Execution, WellFormed, Enabled, Apply, Initial;
    var quiet: nat :| QuietFrom(g, quiet);
    last := if quiet >= n then quiet else n;
  }
}
