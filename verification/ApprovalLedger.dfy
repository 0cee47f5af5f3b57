/** Holds on the approval ledger: opening, deciding, expiring and using them
    (api_gateway/chat/tool_approvals.py, api_gateway/mcp_approvals.py). */
module ApprovalLedger {
  import opened Options
  import opened ApprovalStore

  const GRACE := 30.0
  const DEFAULT_WINDOW := 180.0
  const MAX_WINDOW := 3600.0

  /** How long a hold waits: the asked window if there is one, within the cap. */
  function WindowOf(timeout: Option<real>): real {
    var window := if timeout.None? || timeout.value == 0.0 then DEFAULT_WINDOW else timeout.value;
    if window < MAX_WINDOW then window else MAX_WINDOW
  }

  datatype Outcome = APPROVED | REJECTED | TIMED_OUT | CANCELLED

  const LOCAL_ELICITATION := Approver("local:elicitation", false)

  /** The status-to-outcome mapping of `close_hold` and `read_hold`. */
  function OutcomeOn(s: Status): Outcome {
    match s
    case Running => APPROVED
    case Completed => APPROVED
    case TimedOut => TIMED_OUT
    case Canceled => CANCELLED
    case _ => REJECTED
  }

  predicate IsApproved(s: Status) {
    s == Running || s == Completed
  }

  /** `_is_live`: pending, or decided, unused and inside its lifetime. */
  predicate Live(r: Run, now: real) {
    && !r.consumed
    && (|| r.status == Awaiting
        || ((IsApproved(r.status) || r.status == Status.Rejected) && (r.expires.None? || now < r.expires.value)))
  }

  predicate HasLive(runs: Runs, key: string, now: real) {
    exists id :: id in runs && runs[id].key == Some(key) && Live(runs[id], now)
  }

  /** A live hold of the key that no live hold of the key is newer than. */
  predicate IsNewest(runs: Runs, id: HoldId, key: string, now: real) {
    && id in runs && runs[id].key == Some(key) && Live(runs[id], now)
    && forall other :: other in runs && runs[other].key == Some(key) && Live(runs[other], now) ==>
         runs[other].created <= runs[id].created
  }

  /** What is live after a sweep: a hold still pending before its deadline, or one decided, unused
      and inside its lifetime. */
  lemma {:induction false} SweptLive(runs: Runs, key: string, now: real)
    ensures HasLive(Expired(runs, now), key, now) <==>
            exists id :: id in runs && runs[id].key == Some(key) && !runs[id].consumed
                         && var r := runs[id];
                            (|| (r.status == Awaiting && (r.deadline.None? || now < r.deadline.value))
                             || ((r.status == Running || r.status == Completed || r.status == Status.Rejected)
                                 && (r.expires.None? || now < r.expires.value)))
  {
    var swept := Expired(runs, now);
    if id :| id in swept && swept[id].key == Some(key) && Live(swept[id], now) {
      assert id in runs && runs[id].key == Some(key);
    }
    if id :| id in runs && runs[id].key == Some(key) && !runs[id].consumed
             && var r := runs[id];
                (|| (r.status == Awaiting && (r.deadline.None? || now < r.deadline.value))
                 || ((r.status == Running || r.status == Completed || r.status == Status.Rejected)
                     && (r.expires.None? || now < r.expires.value))) {
      assert id in swept && swept[id].key == Some(key) && Live(swept[id], now);
    }
  }

  /** `consume_hold` accepts exactly these. */
  predicate Usable(r: Run, now: real) {
    && !r.consumed
    && (r.status == Status.Rejected || (IsApproved(r.status) && (r.expires.None? || now < r.expires.value)))
  }

  // ----- What happens to the ledger, one atomic step at a time -------------------------

  datatype Op =
    | Open(id: HoldId, key: Option<string>, window: real)          // create_hold
    | Close(id: HoldId, outcome: Outcome, approver: Approver)      // close_hold, resolve, a waiter giving up
    | Decide(id: HoldId, approve: bool, approver: Approver)        // the dashboard
    | Sweep                                                        // expire_overdue_holds
    | Use(id: HoldId)                                              // consume_hold
    | ByPolicy(id: HoldId, key: Option<string>, approver: Approver) // approve_by_policy

  /** A pending hold takes the outcome; anything else is left as it is. */
  function Closed(r: Run, outcome: Outcome, approver: Approver): Run {
    if r.status != Awaiting then r
    else match outcome
      case APPROVED => r.(status := Completed, approver := Some(approver))
      case REJECTED => r.(status := Status.Rejected, approver := Some(approver))
      case TIMED_OUT => r.(status := TimedOut)
      case CANCELLED => r.(status := Canceled)
  }

  function WithClosed(runs: Runs, id: HoldId, outcome: Outcome, approver: Approver): Runs {
    if id in runs then runs[id := Closed(runs[id], outcome, approver)] else runs
  }

  function Opened(key: Option<string>, window: real, now: real): Run {
    Run(Awaiting, now, Some(now + window + GRACE), None, key, if key.Some? then Some(now + window) else None, false)
  }

  predicate Possible(runs: Runs, op: Op, now: real) {
    match op
    case Open(id, key, _) => id !in runs && (key.Some? ==> !HasLive(Expired(runs, now), key.value, now))
    case ByPolicy(id, _, _) => id !in runs
    case Use(id) => id in runs && Usable(runs[id], now)
    case _ => true
  }

  function Effect(runs: Runs, op: Op, now: real): Runs {
    match op
    case Open(id, key, window) => (if key.Some? then Expired(runs, now) else runs)[id := Opened(key, window, now)]
    case Close(id, outcome, approver) => WithClosed(runs, id, outcome, approver)
    case Decide(id, approve, approver) => WithClosed(Expired(runs, now), id, if approve then APPROVED else REJECTED, approver)
    case Sweep => Expired(runs, now)
    case Use(id) => if id in runs then runs[id := runs[id].(consumed := true)] else runs
    case ByPolicy(id, key, approver) => runs[id := Run(Completed, now, Some(now + 180.0), Some(approver), key, None, key.Some?)]
  }

  /** A history of the ledger under a clock that never runs backwards. */
  ghost predicate IsHistory(trace: seq<Runs>, ops: seq<Op>, times: seq<real>) {
    && |trace| == |ops| + 1 && |times| == |ops| && trace[0] == map[]
    && (forall i :: 0 <= i < |ops| ==> Possible(trace[i], ops[i], times[i]) && trace[i + 1] == Effect(trace[i], ops[i], times[i]))
    && (forall i, j :: 0 <= i <= j < |times| ==> times[i] <= times[j])
  }

  /** What a history may consist of: every history goes on, at any later time, with every operation
      but the opening of a hold under a taken id or beside a live one of its key, and the use of
      a hold that is not decided, already used or past its lifetime. */
  lemma {:induction false} HistoryGoesOn(trace: seq<Runs>, ops: seq<Op>, times: seq<real>, op: Op, now: real)
    requires IsHistory(trace, ops, times) && forall i :: 0 <= i < |times| ==> times[i] <= now
    requires op.Open? || op.ByPolicy? ==> op.id !in trace[|ops|]
    requires op.Open? && op.key.Some? ==>
               forall id :: id in trace[|ops|] && trace[|ops|][id].key == op.key && !trace[|ops|][id].consumed ==>
                 var r := trace[|ops|][id];
                 && (r.status == Awaiting ==> r.deadline.Some? && r.deadline.value <= now)
                 && (r.status == Running || r.status == Completed || r.status == Status.Rejected ==>
                       r.expires.Some? && r.expires.value <= now)
    requires op.Use? ==>
               && op.id in trace[|ops|] && !trace[|ops|][op.id].consumed
               && var r := trace[|ops|][op.id];
                  (|| r.status == Status.Rejected
                   || ((r.status == Running || r.status == Completed) && (r.expires.None? || now < r.expires.value)))
    ensures IsHistory([map[]], [], [])
    ensures IsHistory(trace + [Effect(trace[|ops|], op, now)], ops + [op], times + [now])
  {
    if op.Open? && op.key.Some? {
      SweptLive(trace[|ops|], op.key.value, now);
    }
    assert Possible(trace[|ops|], op, now) by {
      hide Expired, HasLive;
    }
    hide Possible, Effect;
  }

  // ----- Every history ----------------------------------------------------------------

  /** No hold is ever seen half decided, and exactly the answered ones have an approver. */
  ghost predicate Resting(runs: Runs) {
    forall id :: id in runs ==>
      && (runs[id].status == Awaiting || runs[id].status == Completed || runs[id].status == Status.Rejected
          || runs[id].status == TimedOut || runs[id].status == Canceled)
      && (runs[id].approver.Some? <==> runs[id].status == Completed || runs[id].status == Status.Rejected)
  }

  lemma {:induction false} RestingStep(runs: Runs, op: Op, now: real)
    requires Resting(runs)
    ensures Resting(Effect(runs, op, now))
  {
  }

  lemma {:induction false} AlwaysResting(trace: seq<Runs>, ops: seq<Op>, times: seq<real>, n: nat)
    requires IsHistory(trace, ops, times) && n < |trace|
    ensures Resting(trace[n])
  {
    if n == 0 {
    } else {
      AlwaysResting(trace, ops, times, n - 1);
      assert trace[n - 1 + 1] == Effect(trace[n - 1], ops[n - 1], times[n - 1]);
      hide Effect, Possible, Resting;
      RestingStep(trace[n - 1], ops[n - 1], times[n - 1]);
    }
  }

  /** What one step may do to a hold that is already on the ledger. */
  ghost predicate HoldKept(r: Run, t: Run) {
    && t.key == r.key && t.expires == r.expires && (r.consumed ==> t.consumed)
    && (r.status != Awaiting ==> t.status == r.status && t.approver == r.approver)
  }

  lemma {:induction false} StepKeeps(runs: Runs, op: Op, now: real, id: HoldId)
    requires Possible(runs, op, now) && id in runs
    ensures id in Effect(runs, op, now) && HoldKept(runs[id], Effect(runs, op, now)[id])
  {
  }

  /** A hold is decided at most once: from its first decision on, its status and approver
      are the same at every later point of every history. */
  lemma {:induction false} DecidedOnce(trace: seq<Runs>, ops: seq<Op>, times: seq<real>, i: nat, j: nat, id: HoldId)
    requires IsHistory(trace, ops, times) && i <= j < |trace| && id in trace[i]
    ensures id in trace[j] && HoldKept(trace[i][id], trace[j][id])
    ensures trace[i][id].status != Awaiting ==>
              trace[j][id].status == trace[i][id].status && trace[j][id].approver == trace[i][id].approver
    ensures trace[j][id].expires == trace[i][id].expires && (trace[i][id].consumed ==> trace[j][id].consumed)
    decreases j
  {
    hide Effect, Possible;
    if i == j {
    } else {
      DecidedOnce(trace, ops, times, i, j - 1, id);
      assert trace[j - 1 + 1] == Effect(trace[j - 1], ops[j - 1], times[j - 1]);
      StepKeeps(trace[j - 1], ops[j - 1], times[j - 1], id);
    }
  }

  /** `read_hold`. */
  function Read(r: Run): Option<Outcome> {
    if r.status == Awaiting then None else Some(OutcomeOn(r.status))
  }

  /** What `close_hold` returns. */
  function CloseReturns(r: Run, outcome: Outcome, approver: Approver): Outcome {
    OutcomeOn(Closed(r, outcome, approver).status)
  }

  /** Once a close returned an outcome, every later close and read returns that one. */
  lemma {:induction false} LedgerAgreement(trace: seq<Runs>, ops: seq<Op>, times: seq<real>, n: nat, j: nat,
                        id: HoldId, outcome: Outcome, approver: Approver, other: Outcome, person: Approver)
    requires IsHistory(trace, ops, times) && n < |ops| && ops[n] == Close(id, outcome, approver) && id in trace[n]
    requires n < j < |trace|
    ensures id in trace[j]
    ensures Read(trace[j][id]) == Some(CloseReturns(trace[n][id], outcome, approver))
    ensures CloseReturns(trace[j][id], other, person) == CloseReturns(trace[n][id], outcome, approver)
    ensures trace[j][id].status ==
            if trace[n][id].status != Awaiting then trace[n][id].status
            else match outcome
                 case APPROVED => Completed
                 case REJECTED => Status.Rejected
                 case TIMED_OUT => TimedOut
                 case CANCELLED => Canceled
  {
    assert trace[n + 1] == Effect(trace[n], ops[n], times[n]);
    assert trace[n + 1][id].status != Awaiting;
    hide Effect, Possible;
    DecidedOnce(trace, ops, times, n + 1, j, id);
  }

  // ----- Durable holds ----------------------------------------------------------------

  predicate SameKeyLive(r: Run, q: Run, now: real) {
    r.key.Some? && r.key == q.key && Live(r, now) && Live(q, now)
  }

  ghost predicate OneLive(runs: Runs, now: real) {
    forall a, b :: a in runs && b in runs && SameKeyLive(runs[a], runs[b], now) ==> a == b
  }

  lemma {:induction false} NeverLiveAgain(runs: Runs, op: Op, now: real, later: real, id: HoldId)
    requires Possible(runs, op, now) && id in runs && now <= later
    ensures id in Effect(runs, op, now)
    ensures Live(Effect(runs, op, now)[id], later) ==> Live(runs[id], now)
    ensures op.Open? && op.key.Some? && Live(Effect(runs, op, now)[id], later) ==>
              Live(Expired(runs, now)[id], now)
  {
  }

  lemma {:induction false} OneLiveStep(runs: Runs, op: Op, now: real, later: real)
    requires Possible(runs, op, now) && OneLive(runs, now) && now <= later
    ensures OneLive(Effect(runs, op, now), later)
  {
    var t := Effect(runs, op, now);
    forall a, b | a in t && b in t && SameKeyLive(t[a], t[b], later)
      ensures a == b
    {
      if a in runs {
        StepKeeps(runs, op, now, a);
        NeverLiveAgain(runs, op, now, later, a);
      }
      if b in runs {
        StepKeeps(runs, op, now, b);
        NeverLiveAgain(runs, op, now, later, b);
      }
    }
  }

  lemma {:induction false} OneLiveMeans(runs: Runs, now: real)
    requires OneLive(runs, now)
    ensures forall a, b :: a in runs && b in runs && runs[a].key.Some? && runs[b].key == runs[a].key ==>
              var live := (r: Run) =>
                && !r.consumed
                && (|| r.status == Awaiting
                    || ((r.status == Running || r.status == Completed || r.status == Status.Rejected)
                        && (r.expires.None? || now < r.expires.value)));
              live(runs[a]) && live(runs[b]) ==> a == b
  {
    forall a, b | a in runs && b in runs && runs[a].key.Some? && runs[b].key == runs[a].key && Live(runs[a], now)
                  && Live(runs[b], now)
      ensures a == b
    {
      assert SameKeyLive(runs[a], runs[b], now);
    }
  }

  /** At any time at most one hold per key is live, so an identical retry finds the hold its
      call opened and no other. */
  lemma {:induction false} OneLiveHold(trace: seq<Runs>, ops: seq<Op>, times: seq<real>, n: nat, now: real)
    requires IsHistory(trace, ops, times) && n < |trace|
    requires n > 0 ==> times[n - 1] <= now
    ensures OneLive(trace[n], now)
    ensures forall a, b :: a in trace[n] && b in trace[n] && trace[n][a].key.Some? && trace[n][b].key == trace[n][a].key ==>
              var live := (r: Run) =>
                && !r.consumed
                && (|| r.status == Awaiting
                    || ((r.status == Running || r.status == Completed || r.status == Status.Rejected)
                        && (r.expires.None? || now < r.expires.value)));
              live(trace[n][a]) && live(trace[n][b]) ==> a == b
  {
    if n == 0 {
    } else {
      OneLiveHold(trace, ops, times, n - 1, times[n - 1]);
      assert trace[n - 1 + 1] == Effect(trace[n - 1], ops[n - 1], times[n - 1]);
      OneLiveStep(trace[n - 1], ops[n - 1], times[n - 1], now);
    }
    OneLiveMeans(trace[n], now);
  }

  lemma {:induction false} UsedNeverAgain(trace: seq<Runs>, ops: seq<Op>, times: seq<real>, i: nat, j: nat, id: HoldId)
    requires IsHistory(trace, ops, times) && i < j < |ops| && ops[i] == Use(id)
    ensures id in trace[i] && ops[j] != Use(id)
  {
    assert Possible(trace[i], ops[i], times[i]) && trace[i + 1] == Effect(trace[i], ops[i], times[i]);
    DecidedOnce(trace, ops, times, i + 1, j, id);
    assert trace[j][id].consumed && Possible(trace[j], ops[j], times[j]);
  }

  /** An approval runs one call: a hold is used at most once, and only after it was decided, by a
      person or by the policy, with the one who decided on record. */
  lemma {:induction false} UsedOnce(trace: seq<Runs>, ops: seq<Op>, times: seq<real>, i: nat, j: nat, id: HoldId)
    requires IsHistory(trace, ops, times) && i < |ops| && j < |ops|
    requires ops[i] == Use(id) && ops[j] == Use(id)
    ensures i == j && id in trace[i]
    ensures Read(trace[i][id]) == Some(APPROVED) || Read(trace[i][id]) == Some(REJECTED)
    ensures trace[i][id].approver.Some? && !trace[i][id].consumed
    ensures trace[i][id].status == Status.Rejected
            || (trace[i][id].status == Completed
                && (trace[i][id].expires.None? || times[i] < trace[i][id].expires.value))
  {
    assert Possible(trace[i], ops[i], times[i]);
    AlwaysResting(trace, ops, times, i);
    if i < j {
      UsedNeverAgain(trace, ops, times, i, j, id);
    } else if j < i {
      UsedNeverAgain(trace, ops, times, j, i, id);
    }
  }

  /** From its decision until its lifetime ends or it is used, a durable hold is what its key
      finds: it can be used, and an identical call is given this hold and no other. */
  lemma {:induction false} DecidedHoldIsFound(trace: seq<Runs>, ops: seq<Op>, times: seq<real>, n: nat, j: nat,
            id: HoldId, key: string, now: real)
    requires IsHistory(trace, ops, times) && n <= j < |trace| && id in trace[n] && trace[n][id].key == Some(key)
    requires trace[n][id].status == Completed || trace[n][id].status == Status.Rejected
    requires forall i :: 0 <= i < j ==> ops[i] != Use(id)
    requires (j > 0 ==> times[j - 1] <= now) && (trace[n][id].expires.None? || now < trace[n][id].expires.value)
    requires !trace[n][id].consumed
    ensures id in trace[j] && Usable(trace[j][id], now) && trace[j][id].status == trace[n][id].status
    ensures HasLive(Expired(trace[j], now), key, now)
    ensures forall found :: IsNewest(Expired(trace[j], now), found, key, now) ==> found == id
  {
    DecidedOnce(trace, ops, times, n, j, id);
    StaysUnused(trace, ops, times, n, j, id);
    OneLiveHold(trace, ops, times, j, now);
    var swept := Expired(trace[j], now);
    assert id in swept && swept[id] == trace[j][id] && Live(swept[id], now);
    hide IsHistory;
    forall found | IsNewest(swept, found, key, now)
      ensures found == id
    {
      assert found in trace[j] && Live(trace[j][found], now) && trace[j][found].key == Some(key);
      assert SameKeyLive(trace[j][found], trace[j][id], now);
    }
  }

  lemma {:induction false} StaysUnused(trace: seq<Runs>, ops: seq<Op>, times: seq<real>, n: nat, j: nat, id: HoldId)
    requires IsHistory(trace, ops, times) && n <= j < |trace| && id in trace[n] && !trace[n][id].consumed
    requires forall i :: n <= i < j ==> ops[i] != Use(id)
    ensures id in trace[j] && !trace[j][id].consumed
    decreases j
  {
    if n == j {
    } else {
      StaysUnused(trace, ops, times, n, j - 1, id);
      assert Possible(trace[j - 1], ops[j - 1], times[j - 1]);
      assert trace[j - 1 + 1] == Effect(trace[j - 1], ops[j - 1], times[j - 1]);
    }
  }

  // ----- The operations on the store --------------------------------------------------

  /** Somebody answered, even when the session has no identity. */
  function Attributed(approver: Option<Approver>): Approver {
    if approver.Some? then approver.value else LOCAL_ELICITATION
  }

  /** A person named by a request: without a name it is nobody, and without authentication of
      the request itself the name is not a verified one. */
  function Believed(claimed: Option<Approver>, authenticated: bool): Option<Approver> {
    if claimed.None? || claimed.value.actor == "" then None
    else Some(Approver(claimed.value.actor, claimed.value.verified && authenticated))
  }

  predicate IsVerified(r: Run) {
    r.approver.Some? && r.approver.value.verified
  }

  datatype Answer = Recorded | Unknown | Conflict | NotApplicable

  class HoldLedger {
    const store: InMemoryRunStore

    constructor (store: InMemoryRunStore)
      ensures this.store == store
    {
      this.store := store;
    }

    /** `find_live_hold`: sweeps first, then takes the newest live hold of the key. */
    method FindLiveHold(key: string, now: real) returns (found: Option<HoldId>)
      modifies store
      ensures store.runs == Expired(old(store.runs), now)
      ensures found.None? <==> !HasLive(store.runs, key, now)
      ensures found.Some? ==> IsNewest(store.runs, found.value, key, now)
      ensures found.None? <==>
                forall id :: id in store.runs && store.runs[id].key == Some(key) && !store.runs[id].consumed ==>
                  var r := store.runs[id];
                  !(|| r.status == Awaiting
                    || ((r.status == Running || r.status == Completed || r.status == Status.Rejected)
                        && (r.expires.None? || now < r.expires.value)))
      ensures found.Some? ==>
                && found.value in store.runs && store.runs[found.value].key == Some(key) && !store.runs[found.value].consumed
                && var r := store.runs[found.value];
                   (|| r.status == Awaiting
                    || ((r.status == Running || r.status == Completed || r.status == Status.Rejected)
                        && (r.expires.None? || now < r.expires.value)))
      ensures found.Some? ==>
                forall id :: id in store.runs && store.runs[id].key == Some(key) && !store.runs[id].consumed
                             && store.runs[found.value].created < store.runs[id].created ==>
                  var r := store.runs[id];
                  !(|| r.status == Awaiting
                    || ((r.status == Running || r.status == Completed || r.status == Status.Rejected)
                        && (r.expires.None? || now < r.expires.value)))
    {
      store.ExpireOverdue(now);
      found := None;
      var left := set id | id in store.runs && store.runs[id].key == Some(key) && Live(store.runs[id], now);
      ghost var matches := left;
      assert HasLive(store.runs, key, now) <==> matches != {} by {
        if id :| id in store.runs && store.runs[id].key == Some(key) && Live(store.runs[id], now) {
          assert id in matches;
        }
      }
      while left != {}
        invariant left <= matches && (found.None? ==> left == matches)
        invariant found.Some? ==> found.value in matches
        invariant found.Some? ==>
                    forall id :: id in matches && id !in left ==> store.runs[id].created <= store.runs[found.value].created
      {
        var id :| id in left;
        if found.None? || store.runs[found.value].created < store.runs[id].created {
          found := Some(id);
        }
        left := left - {id};
      }
    }

    /** `create_hold`: a live durable hold of the same key is reused; otherwise a new one is
        opened, and passes through queued and running before anybody else can look. */
    method CreateHold(newId: HoldId, key: Option<string>, timeout: Option<real>, now: real) returns (id: HoldId)
      requires newId !in store.runs
      modifies store
      ensures id != newId ==> key.Some? && IsNewest(store.runs, id, key.value, now)
      ensures id != newId ==> store.runs == Effect(old(store.runs), Sweep, now)
      ensures id == newId ==> Possible(old(store.runs), Open(newId, key, WindowOf(timeout)), now)
      ensures id == newId ==> store.runs == Effect(old(store.runs), Open(newId, key, WindowOf(timeout)), now)
      ensures id == newId ==>
                var r := store.runs[newId];
                var asked := if timeout.None? || timeout.value == 0.0 then 180.0 else timeout.value;
                var window := if asked < 3600.0 then asked else 3600.0;
                && r.status == Awaiting && r.created == now && r.key == key && !r.consumed && r.approver.None?
                && r.deadline == Some(now + window + 30.0)
                && r.expires == if key.Some? then Some(now + window) else None
      ensures id != newId <==>
                key.Some? && exists other :: other in old(store.runs) && old(store.runs)[other].key == key
                                             && !old(store.runs)[other].consumed
                                             && var r := old(store.runs)[other];
                                                (|| (r.status == Awaiting && (r.deadline.None? || now < r.deadline.value))
                                                 || ((r.status == Running || r.status == Completed
                                                      || r.status == Status.Rejected)
                                                     && (r.expires.None? || now < r.expires.value)))
    {
      if key.Some? {
        SweptLive(store.runs, key.value, now);
        var existing := FindLiveHold(key.value, now);
        if existing.Some? {
          return existing.value;
        }
      }
      hide HasLive;
      var window := WindowOf(timeout);
      store.Create(newId, key, if key.Some? then Some(now + window) else None, now);
      var started := store.Transition(newId, Running);
      var requested := store.RequestApproval(newId, now + window + GRACE);
      return newId;
    }

    /** `record_inline_answer`: the answer, and for an approval its completion, in one go. */
    method RecordInlineAnswer(id: HoldId, approve: bool, approver: Option<Approver>) returns (r: Answer)
      modifies store
      ensures r == Unknown <==> id !in old(store.runs)
      ensures r == Recorded <==> id in old(store.runs) && old(store.runs)[id].status == Awaiting
      ensures r != NotApplicable
      ensures store.runs == WithClosed(old(store.runs), id, if approve then APPROVED else REJECTED, Attributed(approver))
      ensures r == Recorded ==>
                && store.runs[id].status == (if approve then Completed else Status.Rejected)
                && store.runs[id].approver == Some(if approver.Some? then approver.value else Approver("local:elicitation", false))
      ensures r != Recorded ==> store.runs == old(store.runs)
    {
      var reply := store.SubmitApproval(id, if approve then APPROVE else REJECT, Attributed(approver));
      if reply == NotFound {
        return Unknown;
      }
      if reply == Illegal {
        return Conflict;
      }
      if approve {
        var completed := store.Transition(id, Completed);
      }
      return Recorded;
    }

    /** `InProcessApprovalLedger.close_hold`; `None` is the error for an unknown hold. */
    method CloseHold(id: HoldId, outcome: Outcome, approver: Option<Approver>) returns (r: Option<Outcome>)
      modifies store
      ensures store.runs == WithClosed(old(store.runs), id, outcome, Attributed(approver))
      ensures r == if id in store.runs then Some(OutcomeOn(store.runs[id].status)) else None
      ensures id in store.runs ==> Read(store.runs[id]) == r
      ensures id in old(store.runs) ==> (Read(old(store.runs)[id]) == None <==> old(store.runs)[id].status == Awaiting)
      ensures id in old(store.runs) && old(store.runs)[id].status == Awaiting ==>
                && r == Some(outcome) && store.runs.Keys == old(store.runs).Keys
                && var was, now := old(store.runs)[id], store.runs[id];
                   match outcome
                   case APPROVED => now == was.(status := Completed, approver := Some(Attributed(approver)))
                   case REJECTED => now == was.(status := Status.Rejected, approver := Some(Attributed(approver)))
                   case TIMED_OUT => now == was.(status := TimedOut)
                   case CANCELLED => now == was.(status := Canceled)
      ensures id in old(store.runs) && old(store.runs)[id].status != Awaiting ==>
                && store.runs == old(store.runs)
                && r == Some(match store.runs[id].status
                             case Running => APPROVED
                             case Completed => APPROVED
                             case TimedOut => TIMED_OUT
                             case Canceled => CANCELLED
                             case _ => REJECTED)
    {
      if id !in store.runs {
        return None;
      }
      if store.runs[id].status == Awaiting {
        if outcome == APPROVED || outcome == REJECTED {
          var answer := RecordInlineAnswer(id, outcome == APPROVED, approver);
        } else if outcome == TIMED_OUT {
          var reply := store.Transition(id, TimedOut);
        } else {
          var reply := store.Transition(id, Canceled);
        }
      }
      return Some(OutcomeOn(store.runs[id].status));
    }

    /** `resolve_unanswered_hold`: refused exactly when a person has already decided. */
    method ResolveHold(id: HoldId, outcome: Outcome, claimed: Option<Approver>, authenticated: bool) returns (r: Answer)
      modifies store
      ensures store.runs == WithClosed(old(store.runs), id, outcome, Attributed(Believed(claimed, authenticated)))
      ensures r == Unknown <==> id !in store.runs
      ensures r != NotApplicable
      ensures id in store.runs && old(store.runs)[id].approver.None? && IsVerified(store.runs[id]) ==> authenticated
      ensures id in store.runs && Resting(old(store.runs)) ==>
                (r == Conflict <==> Read(old(store.runs)[id]) == Some(APPROVED) || Read(old(store.runs)[id]) == Some(REJECTED))
      ensures id in old(store.runs) && old(store.runs)[id].status != Awaiting ==>
                && store.runs == old(store.runs)
                && r == if old(store.runs)[id].status == TimedOut || old(store.runs)[id].status == Canceled then Recorded
                        else Conflict
      ensures id in old(store.runs) && old(store.runs)[id].status == Awaiting ==>
                && r == Recorded && store.runs.Keys == old(store.runs).Keys
                && var was, now := old(store.runs)[id], store.runs[id];
                   var named := claimed.Some? && claimed.value.actor != "";
                   var by_ := if named then Approver(claimed.value.actor, claimed.value.verified && authenticated)
                              else Approver("local:elicitation", false);
                   match outcome
                   case APPROVED => now == was.(status := Completed, approver := Some(by_))
                   case REJECTED => now == was.(status := Status.Rejected, approver := Some(by_))
                   case TIMED_OUT => now == was.(status := TimedOut)
                   case CANCELLED => now == was.(status := Canceled)
    {
      if id !in store.runs {
        return Unknown;
      }
      var status := store.runs[id].status;
      if status == TimedOut || status == Canceled {
        return Recorded;
      }
      if status != Awaiting {
        return Conflict;
      }
      var _ := CloseHold(id, outcome, Believed(claimed, authenticated));
      return Recorded;
    }

    /** `decide_tool_approval`: the dashboard's answer counts exactly while the hold is pending,
        and only design-flow gates know retry and rework. */
    method DecideToolApproval(id: HoldId, decision: Decision, approver: Approver, now: real) returns (r: Answer)
      modifies store
      ensures store.runs == if decision == RETRY || decision == REWORK then Expired(old(store.runs), now)
                            else Effect(old(store.runs), Decide(id, decision == APPROVE, approver), now)
      ensures r == Unknown <==> id !in old(store.runs)
      ensures id in old(store.runs) ==>
                var status := Expired(old(store.runs), now)[id].status;
                && (r == NotApplicable <==>
                      (decision == RETRY || decision == REWORK) && status != TimedOut && status != Canceled)
                && (r == Recorded <==> (decision == APPROVE || decision == REJECT) && status == Awaiting)
      ensures id in old(store.runs) ==>
                var was := old(store.runs)[id];
                var pending := was.status == Awaiting && (was.deadline.None? || now < was.deadline.value);
                && id in store.runs
                && (r == Recorded <==> (decision == APPROVE || decision == REJECT) && pending)
                && (r == Recorded ==>
                      store.runs[id] == was.(status := if decision == APPROVE then Completed else Status.Rejected,
                                             approver := Some(approver)))
                && (was.status != Awaiting ==> store.runs[id] == was)
                && (was.status == Awaiting && !pending ==> r == Conflict && store.runs[id] == was.(status := TimedOut))
    {
      store.ExpireOverdue(now);
      if id !in store.runs {
        return Unknown;
      }
      if store.runs[id].status == TimedOut || store.runs[id].status == Canceled {
        return Conflict;
      }
      if decision == RETRY || decision == REWORK {
        return NotApplicable;
      }
      r := RecordInlineAnswer(id, decision == APPROVE, Some(approver));
    }

    /** `approve_by_policy` for a call the policy covers: an approval that is on record like any
        other and, if it has a key, already used by the call it lets through. */
    method ApproveByPolicy(newId: HoldId, key: Option<string>, policy: string, now: real)
      requires newId !in store.runs
      modifies store
      ensures store.runs == Effect(old(store.runs), ByPolicy(newId, key, Approver(policy, false)), now)
      ensures store.runs.Keys == old(store.runs).Keys + {newId}
      ensures store.runs[newId].status == Completed && store.runs[newId].approver == Some(Approver(policy, false))
      ensures store.runs[newId].consumed <==> key.Some?
    {
      store.Create(newId, key, None, now);
      if key.Some? {
        store.runs := store.runs[newId := store.runs[newId].(consumed := true)];
      }
      var started := store.Transition(newId, Running);
      var requested := store.RequestApproval(newId, now + DEFAULT_WINDOW);
      var submitted := store.SubmitApproval(newId, APPROVE, Approver(policy, false));
      var completed := store.Transition(newId, Completed);
    }

    /** `consume_hold`: accepted exactly when the hold is usable now. */
    method ConsumeHold(id: HoldId, now: real) returns (used: bool)
      modifies store
      ensures used <==> Possible(old(store.runs), Use(id), now)
      ensures store.runs == if used then Effect(old(store.runs), Use(id), now) else old(store.runs)
      ensures used <==>
                && id in old(store.runs) && !old(store.runs)[id].consumed
                && var r := old(store.runs)[id];
                   (|| r.status == Status.Rejected
                    || ((r.status == Running || r.status == Completed) && (r.expires.None? || now < r.expires.value)))
      ensures used ==> store.runs == old(store.runs)[id := old(store.runs)[id].(consumed := true)]
    {
      if id !in store.runs {
        return false;
      }
      var run := store.runs[id];
      if run.consumed || run.status == Awaiting {
        return false;
      }
      if !IsApproved(run.status) && run.status != Status.Rejected {
        return false;
      }
      if IsApproved(run.status) && run.expires.Some? && now >= run.expires.value {
        return false;
      }
      store.runs := store.runs[id := run.(consumed := true)];
      return true;
    }
  }
}
