/** Attempts along one chain: an enqueued ticket and the retries that descend from it. */
module SchedulerRetries {
  import opened Workflow
  import opened WorkflowRuns
  import opened Backoff
  import opened SchedulerModel
  import opened SchedulerSafety

  /** An attempt, or else a back-off, of chain `c`. */
  predicate Tallies(e: Event, c: nat, sleeps: bool) {
    (if sleeps then e.BackedOff? else e.Attempted?) && e.ticket.chain == c
  }

  function Tally(log: seq<Event>, n: nat, c: nat, sleeps: bool): nat
    requires n <= |log|
  {
    if n == 0 then 0 else Tally(log, n - 1, c, sleeps) + if Tallies(log[n - 1], c, sleeps) then 1 else 0
  }

  /** Attempts of chain `c` among the first `n` events. */
  function Attempts(log: seq<Event>, n: nat, c: nat): nat
    requires n <= |log|
  {
    Tally(log, n, c, false)
  }

  /** Back-offs of chain `c` among the first `n` events. */
  function Backoffs(log: seq<Event>, n: nat, c: nat): nat
    requires n <= |log|
  {
    Tally(log, n, c, true)
  }

  /** The delays logged for chain `c` among the first `n` events, added up. */
  function Slept(log: seq<Event>, n: nat, c: nat): real
    requires n <= |log|
  {
    if n == 0 then 0.0 else Slept(log, n - 1, c) + if Tallies(log[n - 1], c, true) then log[n - 1].delay else 0.0
  }

  /** Retries a step may use; a negative `retry_max` allows none. */
  function Limit(p: Plan, k: StepId): nat {
    if MaxRetries(p, k) > 0 then MaxRetries(p, k) else 0
  }

  /** The chain can still attempt, or is in the middle of an attempt. */
  predicate Ongoing(item: Item) {
    item.place != Finished && item.place != Failing
  }

  function Begun(place: Place): nat {
    if place == Announcing || place == Working || place == Reporting then 1 else 0
  }

  ghost predicate CountOk(items: Items, log: seq<Event>) {
    forall i :: i in items && Ongoing(items[i]) ==>
      && Attempts(log, |log|, items[i].ticket.chain) == items[i].ticket.retryCount + Begun(items[i].place)
      && Backoffs(log, |log|, items[i].ticket.chain) == items[i].ticket.retryCount
  }

  predicate SameChain(x: Item, y: Item) {
    Ongoing(x) && Ongoing(y) && x.ticket.chain == y.ticket.chain
  }

  ghost predicate ChainsOk(items: Items, next: nat) {
    && (forall i :: i in items ==> items[i].ticket.chain < next)
    && (forall i, j :: i in items && j in items && SameChain(items[i], items[j]) ==> i == j)
  }

  ghost predicate LimitOk(p: Plan, items: Items) {
    forall i :: i in items ==> items[i].ticket.retryCount <= Limit(p, items[i].ticket.key.step)
  }

  /** The n-th attempt of a chain is its n-th retry, within the limit, and each retry has slept
      for its own delay; a chain gives up only when it has made all the attempts it may make. */
  ghost predicate EventOk(p: Plan, log: seq<Event>, n: nat, next: nat)
    requires n < |log|
  {
    && (log[n].Attempted? ==>
          && Attempts(log, n, log[n].ticket.chain) == log[n].ticket.retryCount
          && log[n].ticket.retryCount <= Limit(p, log[n].ticket.key.step)
          && log[n].ticket.chain < next)
    && (log[n].GaveUp? ==> Attempts(log, n, log[n].ticket.chain) == Limit(p, log[n].ticket.key.step) + 1)
    && (log[n].BackedOff? ==>
          && Backoffs(log, n, log[n].ticket.chain) == log[n].ticket.retryCount
          && log[n].ticket.retryCount < Limit(p, log[n].ticket.key.step)
          && log[n].delay == Delay(BACKOFF_SECONDS, BACKOFF_MULTIPLIER, log[n].ticket.retryCount)
          && log[n].ticket.chain < next)
  }

  ghost predicate LogOk(p: Plan, log: seq<Event>, next: nat) {
    forall n :: 0 <= n < |log| ==> EventOk(p, log, n, next)
  }

  ghost predicate RetryOk(p: Plan, s: State) {
    CountOk(s.items, s.log) && ChainsOk(s.items, s.next) && LimitOk(p, s.items) && LogOk(p, s.log, s.next)
  }

  lemma {:induction false} TallyPrefix(log: seq<Event>, e: Event, n: nat, c: nat, sleeps: bool)
    requires n <= |log|
    ensures Tally(log + [e], n, c, sleeps) == Tally(log, n, c, sleeps)
  {
    if n == 0 {
    } else {
      TallyPrefix(log, e, n - 1, c, sleeps);
    }
  }

  lemma {:induction false} TallyAppend(log: seq<Event>, e: Event)
    ensures forall c, n, sleeps :: 0 <= n <= |log| ==> Tally(log + [e], n, c, sleeps) == Tally(log, n, c, sleeps)
    ensures forall c, sleeps :: Tally(log + [e], |log| + 1, c, sleeps) ==
                                Tally(log, |log|, c, sleeps) + if Tallies(e, c, sleeps) then 1 else 0
  {
    forall c: nat, n: nat, sleeps: bool | n <= |log|
      ensures Tally(log + [e], n, c, sleeps) == Tally(log, n, c, sleeps)
    {
      TallyPrefix(log, e, n, c, sleeps);
    }
  }

  lemma {:induction false} FreshChain(p: Plan, log: seq<Event>, next: nat, n: nat, c: nat)
    requires n <= |log| && LogOk(p, log, next) && c >= next
    ensures Attempts(log, n, c) == 0 && Backoffs(log, n, c) == 0
  {
    if n == 0 {
    } else {
      FreshChain(p, log, next, n - 1, c);
      assert EventOk(p, log, n - 1, next);
    }
  }

  /** What an event must be for the log to stay in order. */
  ghost predicate MayFollow(p: Plan, log: seq<Event>, e: Event, next: nat) {
    && (e.Attempted? ==>
          && Attempts(log, |log|, e.ticket.chain) == e.ticket.retryCount && e.ticket.chain < next
          && e.ticket.retryCount <= Limit(p, e.ticket.key.step))
    && (e.GaveUp? ==> Attempts(log, |log|, e.ticket.chain) == Limit(p, e.ticket.key.step) + 1)
    && (e.BackedOff? ==>
          && Backoffs(log, |log|, e.ticket.chain) == e.ticket.retryCount && e.ticket.chain < next
          && e.ticket.retryCount < Limit(p, e.ticket.key.step)
          && e.delay == Delay(BACKOFF_SECONDS, BACKOFF_MULTIPLIER, e.ticket.retryCount))
  }

  lemma {:induction false} LogAppend(p: Plan, log: seq<Event>, e: Event, next: nat)
    requires LogOk(p, log, next) && MayFollow(p, log, e, next)
    ensures LogOk(p, log + [e], next)
  {
    TallyAppend(log, e);
    forall n | 0 <= n < |log + [e]|
      ensures EventOk(p, log + [e], n, next)
    {
      assert n < |log| ==> EventOk(p, log, n, next);
    }
  }

  lemma {:induction false} LogLater(p: Plan, log: seq<Event>, next: nat, later: nat)
    requires LogOk(p, log, next) && next <= later
    ensures LogOk(p, log, later)
  {
    forall n | 0 <= n < |log|
      ensures EventOk(p, log, n, later)
    {
      assert EventOk(p, log, n, next);
    }
  }

  /** An event of no chain changes no count. */
  lemma {:induction false} CountAppend(items: Items, log: seq<Event>, e: Event)
    requires CountOk(items, log) && !e.Attempted? && !e.BackedOff?
    ensures CountOk(items, log + [e])
  {
    TallyAppend(log, e);
  }

  /** Item `id` becomes `item`, which continues its chain or leaves it. */
  lemma {:induction false} RetryReplace(p: Plan, s: State, id: nat, item: Item)
    requires RetryOk(p, s) && id in s.items && item.ticket.chain == s.items[id].ticket.chain
    requires Ongoing(item) ==> Ongoing(s.items[id])
    requires Ongoing(item) ==>
               item.ticket.retryCount == s.items[id].ticket.retryCount && Begun(item.place) == Begun(s.items[id].place)
    requires item.ticket.retryCount <= Limit(p, item.ticket.key.step)
    ensures RetryOk(p, s.(items := s.items[id := item]))
  {
    var items := s.items[id := item];
    assert CountOk(items, s.log) by {
      hide ChainsOk, LimitOk, LogOk;
    }
    assert ChainsOk(items, s.next) by {
      hide CountOk, LimitOk, LogOk;
    }
    hide CountOk, ChainsOk, LogOk;
  }

  lemma {:induction false} RetryWithout(p: Plan, s: State, id: nat)
    requires RetryOk(p, s)
    ensures RetryOk(p, Drop(s, id))
  {
    hide LogOk, Attempts, Backoffs;
  }

  lemma {:induction false} RetryLog(p: Plan, s: State, e: Event)
    requires RetryOk(p, s) && !e.Attempted? && !e.BackedOff?
    requires e.GaveUp? ==> Attempts(s.log, |s.log|, e.ticket.chain) == Limit(p, e.ticket.key.step) + 1
    ensures RetryOk(p, Log(s, e))
  {
    hide ChainsOk, LimitOk, CountOk, LogOk;
    CountAppend(s.items, s.log, e);
    LogAppend(p, s.log, e, s.next);
  }

  lemma {:induction false} CountAttempt(items: Items, log: seq<Event>, next: nat, id: nat, item: Item)
    requires CountOk(items, log) && ChainsOk(items, next) && id in items && items[id].place == Launched
    requires item.ticket == items[id].ticket && item.place == Announcing
    ensures CountOk(items[id := item], log + [Attempted(item.ticket)])
    ensures ChainsOk(items[id := item], next)
    ensures Attempts(log, |log|, item.ticket.chain) == item.ticket.retryCount
  {
    TallyAppend(log, Attempted(item.ticket));
    assert Ongoing(items[id]);
    hide Tally;
  }

  /** A failed attempt goes to sleep: one more back-off, one more retry counted. */
  lemma {:induction false} CountSleep(items: Items, log: seq<Event>, next: nat, id: nat, item: Item, delay: real)
    requires CountOk(items, log) && ChainsOk(items, next) && id in items && items[id].place == Working
    requires item.place == Sleeping
    requires item.ticket == items[id].ticket.(retryCount := items[id].ticket.retryCount + 1)
    ensures CountOk(items[id := item], log + [BackedOff(items[id].ticket, delay)])
    ensures ChainsOk(items[id := item], next)
    ensures Backoffs(log, |log|, item.ticket.chain) == items[id].ticket.retryCount
  {
    TallyAppend(log, BackedOff(items[id].ticket, delay));
    assert Ongoing(items[id]);
    hide Tally;
  }

  lemma {:induction false} RetrySleep(p: Plan, s: State, id: nat)
    requires RetryOk(p, s) && At(s, id, Working)
    requires s.items[id].ticket.retryCount < MaxRetries(p, s.items[id].ticket.key.step)
    ensures RetryOk(p, Asleep(s, id))
  {
    var t := s.items[id].ticket;
    var item := s.items[id].(ticket := t.(retryCount := t.retryCount + 1), place := Sleeping);
    var delay := Delay(BACKOFF_SECONDS, BACKOFF_MULTIPLIER, t.retryCount);
    assert t.chain < s.next && LimitOk(p, s.items[id := item]);
    hide ChainsOk, LimitOk, CountOk, LogOk, Delay;
    CountSleep(s.items, s.log, s.next, id, item, delay);
    LogAppend(p, s.log, BackedOff(t, delay), s.next);
  }

  lemma {:induction false} RetryAttempt(p: Plan, s: State, id: nat)
    requires RetryOk(p, s) && At(s, id, Launched)
    ensures RetryOk(p, DoBegin(s, id, true))
  {
    var item := s.items[id].(place := Announcing);
    assert item.ticket.retryCount <= Limit(p, item.ticket.key.step) && item.ticket.chain < s.next;
    assert LimitOk(p, s.items[id := item]);
    hide ChainsOk, LimitOk, CountOk, LogOk, WithStep;
    CountAttempt(s.items, s.log, s.next, id, item);
    LogAppend(p, s.log, Attempted(item.ticket), s.next);
  }

  /** `after` has the items of `before` and fresh queued tickets, each starting its own chain. */
  ghost predicate FreshOnly(before: Items, after: Items, next: nat, later: nat) {
    && next <= later
    && (forall i :: i in after && i in before ==> after[i] == before[i])
    && (forall i :: i in after && i !in before ==>
          next <= i < later && after[i].place == Queued && after[i].ticket.retryCount == 0 && after[i].ticket.chain == i)
  }

  lemma {:induction false} FreshCount(p: Plan, before: Items, after: Items, log: seq<Event>, next: nat, later: nat)
    requires CountOk(before, log) && LogOk(p, log, next) && FreshOnly(before, after, next, later)
    ensures CountOk(after, log)
  {
    forall i | i in after && i !in before
      ensures Attempts(log, |log|, i) == 0 && Backoffs(log, |log|, i) == 0
    {
      FreshChain(p, log, next, |log|, i);
    }
    hide LogOk, Attempts, Backoffs;
  }

  lemma {:induction false} FreshChains(before: Items, after: Items, next: nat, later: nat)
    requires ChainsOk(before, next) && FreshOnly(before, after, next, later)
    ensures ChainsOk(after, later)
  {
  }

  /** Fresh tickets start fresh chains. */
  lemma {:induction false} OfferRetry(p: Plan, s: State, run: RunId, ks: seq<StepId>, mark: bool)
    requires RetryOk(p, s) && forall i :: i in s.items ==> i < s.next
    ensures RetryOk(p, Offer(s, run, ks, |ks|, mark))
  {
    var t := Offer(s, run, ks, |ks|, mark);
    OfferItems(s, run, ks, |ks|, mark);
    hide Offer, LogOk, CountOk, ChainsOk;
    assert FreshOnly(s.items, t.items, s.next, t.next);
    assert LimitOk(p, t.items);
    hide FreshOnly, LimitOk, NewItems;
    LogLater(p, s.log, s.next, t.next);
    FreshCount(p, s.items, t.items, s.log, s.next, t.next);
    FreshChains(s.items, t.items, s.next, t.next);
  }

  /** The retry of a ticket takes its chain over from the task that slept. */
  lemma {:induction false} RetryWake(p: Plan, s: State, id: nat)
    requires RetryOk(p, s) && At(s, id, Sleeping) && forall i :: i in s.items ==> i < s.next
    ensures RetryOk(p, DoWake(s, id))
  {
    var t := DoWake(s, id);
    assert Ongoing(s.items[id]);
    hide LogOk, Attempts, Backoffs;
    LogLater(p, s.log, s.next, t.next);
    WakeCount(s.items, t.items, s.log, id, s.next);
    WakeChains(s.items, t.items, id, s.next);
    hide CountOk, ChainsOk;
  }

  lemma {:induction false} WakeCount(items: Items, after: Items, log: seq<Event>, id: nat, next: nat)
    requires CountOk(items, log) && id in items && items[id].place == Sleeping
    requires after == items[id := items[id].(place := Finished)][next := Item(items[id].ticket, Queued, false)]
    ensures CountOk(after, log)
  {
    assert Ongoing(items[id]);
    hide Attempts, Backoffs;
  }

  lemma {:induction false} WakeChains(items: Items, after: Items, id: nat, next: nat)
    requires ChainsOk(items, next) && id in items && items[id].place == Sleeping
    requires after == items[id := items[id].(place := Finished)][next := Item(items[id].ticket, Queued, false)]
    ensures ChainsOk(after, next + 1)
  {
    assert Ongoing(items[id]);
  }

  /** An attempt ends: the item moves and an event is logged. */
  lemma {:induction false} RetryEnds(p: Plan, s: State, t: State, id: nat, e: Event)
    requires RetryOk(p, s) && id in s.items && id in t.items && t.items == s.items[id := t.items[id]]
    requires t.items[id].ticket == s.items[id].ticket
    requires Ongoing(t.items[id]) ==> Ongoing(s.items[id]) && Begun(t.items[id].place) == Begun(s.items[id].place)
    requires t.next == s.next && t.log == s.log + [e] && !e.Attempted? && !e.BackedOff?
    requires e.GaveUp? ==> Attempts(s.log, |s.log|, e.ticket.chain) == Limit(p, e.ticket.key.step) + 1
    ensures RetryOk(p, t)
  {
    hide RetryOk;
    LimitAt(p, s, id);
    RetryReplace(p, s, id, t.items[id]);
    RetryLog(p, s.(items := t.items), e);
    RetryRuns(p, Log(s.(items := t.items), e), t);
  }

  lemma {:induction false} RetryMoves(p: Plan, s: State, t: State, id: nat)
    requires RetryOk(p, s) && id in s.items && id in t.items && t.items == s.items[id := t.items[id]]
    requires t.items[id].ticket.chain == s.items[id].ticket.chain
    requires t.items[id].ticket.retryCount <= Limit(p, t.items[id].ticket.key.step)
    requires Ongoing(t.items[id]) ==> Ongoing(s.items[id])
    requires Ongoing(t.items[id]) ==>
               && t.items[id].ticket.retryCount == s.items[id].ticket.retryCount
               && Begun(t.items[id].place) == Begun(s.items[id].place)
    requires t.next == s.next && t.log == s.log
    ensures RetryOk(p, t)
  {
    hide RetryOk;
    RetryReplace(p, s, id, t.items[id]);
    RetryRuns(p, s.(items := t.items), t);
  }

  lemma {:induction false} RetryTask(p: Plan, s: State, a: Action)
    requires RetryOk(p, s) && Enabled(p, s, a) && MovesTask(a)
    ensures RetryOk(p, Apply(p, s, a))
  {
    hide RetryOk, WithStep;
    LimitAt(p, s, a.id);
    var t, ticket := Apply(p, s, a), s.items[a.id].ticket;
    match a
    case Begin(id, agentFound) =>
      if agentFound {
        RetryAttempt(p, s, id);
      } else {
        RetryEnds(p, s, t, id, NoAgent(ticket));
      }
    case Return(id) => RetryEnds(p, s, t, id, Succeeded(ticket.key));
    case Fail(id) =>
      if ticket.retryCount < MaxRetries(p, ticket.key.step) {
        RetrySleep(p, s, id);
      } else {
        LastAttempt(p, s, id);
        RetryEnds(p, s, t, id, GaveUp(ticket));
      }
    case Announced(id) => RetryMoves(p, s, t, id);
    case Published(id) => RetryMoves(p, s, t, id);
    case Interrupt(id) => RetryEnds(p, s, t, id, Interrupted(ticket));
  }

  lemma {:induction false} RetryRuns(p: Plan, s: State, t: State)
    requires RetryOk(p, s) && t.items == s.items && t.next == s.next && t.log == s.log
    ensures RetryOk(p, t)
  {
    hide ChainsOk, LimitOk, CountOk, LogOk;
  }

  lemma {:induction false} LimitAt(p: Plan, s: State, id: nat)
    requires RetryOk(p, s) && id in s.items
    ensures s.items[id].ticket.retryCount <= Limit(p, s.items[id].ticket.key.step)
  {
    hide CountOk, ChainsOk, LogOk;
  }

  /** A failing ticket without retries left has made every attempt its step allows. */
  lemma {:induction false} LastAttempt(p: Plan, s: State, id: nat)
    requires RetryOk(p, s) && At(s, id, Working)
    requires s.items[id].ticket.retryCount >= MaxRetries(p, s.items[id].ticket.key.step)
    ensures Attempts(s.log, |s.log|, s.items[id].ticket.chain) == Limit(p, s.items[id].ticket.key.step) + 1
  {
    LimitAt(p, s, id);
    assert Ongoing(s.items[id]);
    hide ChainsOk, LogOk, Attempts, LimitOk;
  }

  lemma {:induction false} RetryOffers(p: Plan, max: nat, s: State, a: Action)
    requires Shape(p, max, s) && RetryOk(p, s) && Enabled(p, s, a) && (a.Execute? || a.Handled? || a.Wake?)
    ensures RetryOk(p, Apply(p, s, a))
  {
    Below(p, max, s);
    hide RetryOk, Shape, Offer, Ready, Started;
    match a
    case Execute(run) =>
      var started := s.(runs := s.runs[run := Started(p.deps)]);
      RetryRuns(p, s, started);
      OfferRetry(p, started, run, Ready(p, started, run), false);
    case Handled(id) =>
      LimitAt(p, s, id);
      RetryReplace(p, s, id, s.items[id].(place := Finished));
      OfferRetry(p, Move(s, id, Finished), s.items[id].ticket.key.run, Ready(p, s, s.items[id].ticket.key.run), true);
    case Wake(id) => RetryWake(p, s, id);
  }

  lemma {:induction false} RetryQueue(p: Plan, s: State, a: Action)
    requires RetryOk(p, s) && Enabled(p, s, a) && (a.Dequeue? || a.Acquire? || a.Release?)
    ensures RetryOk(p, Apply(p, s, a))
  {
    hide RetryOk;
    LimitAt(p, s, a.id);
    match a
    case Dequeue(id) =>
      RetryWithout(p, s, id);
      RetryReplace(p, s, id, s.items[id].(place := Held));
      RetryLog(p, Drop(s, id), Dropped(s.items[id].ticket));
      RetryRuns(p, Log(Drop(s, id), Dropped(s.items[id].ticket)),
                Log(Drop(s, id).(tombstones := s.tombstones - {s.items[id].ticket.key}), Dropped(s.items[id].ticket)));
    case Acquire(id) =>
      RetryReplace(p, s, id, s.items[id].(place := Launched));
      RetryRuns(p, Move(s, id, Launched), Apply(p, s, a));
    case Release(id) =>
      RetryWithout(p, s, id);
      RetryRuns(p, Drop(s, id), Apply(p, s, a));
  }

  lemma {:induction false} RetryCancel(p: Plan, s: State, a: Action)
    requires RetryOk(p, s) && Enabled(p, s, a) && (a.CancelStep? || a.CancelRun?)
    ensures RetryOk(p, Apply(p, s, a))
  {
    hide RetryOk, Cancelled;
    if a.CancelRun? {
      RetryLog(p, s, RunWithdrawn(a.run));
      RetryRuns(p, Log(s, RunWithdrawn(a.run)), Apply(p, s, a));
    } else if a.key in s.active && s.active[a.key] in s.items && s.items[s.active[a.key]].place != Finished {
      var id := s.active[a.key];
      var item := s.items[id].(cancelRequested := true);
      LimitAt(p, s, id);
      RetryReplace(p, s, id, item);
      RetryRuns(p, s.(items := s.items[id := item]), Apply(p, s, a));
    } else {
      RetryRuns(p, s, Apply(p, s, a));
    }
  }

  lemma {:induction false} RetryStep(p: Plan, max: nat, s: State, a: Action)
    requires Shape(p, max, s) && RetryOk(p, s) && Enabled(p, s, a)
    ensures RetryOk(p, Apply(p, s, a))
  {
    hide RetryOk, Shape, Apply;
    if MovesTask(a) {
      RetryTask(p, s, a);
    } else if a.CancelStep? || a.CancelRun? {
      RetryCancel(p, s, a);
    } else if a.Execute? || a.Handled? || a.Wake? {
      RetryOffers(p, max, s, a);
    } else {
      RetryQueue(p, s, a);
    }
  }

  /** The delays a chain has slept add up to those of its first retries, one for each. */
  lemma {:induction false} SleptInAll(p: Plan, log: seq<Event>, next: nat, n: nat, c: nat)
    requires n <= |log| && LogOk(p, log, next)
    ensures Slept(log, n, c) == TotalDelay(BACKOFF_SECONDS, BACKOFF_MULTIPLIER, Backoffs(log, n, c))
  {
    if n == 0 {
    } else {
      SleptInAll(p, log, next, n - 1, c);
      assert EventOk(p, log, n - 1, next);
      hide Delay, Limit;
    }
  }
}
