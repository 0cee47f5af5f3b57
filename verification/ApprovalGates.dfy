/** The gates that ask a person about a held call and race everybody else who may decide it
    (mcp_core/elicitation.py). */
module ApprovalGates {
  import opened Options
  import opened ApprovalStore
  import opened ApprovalLedger

  datatype ElicitAction = ACCEPT | DECLINE | CANCEL

  const UNATTENDED_ANSWER_SECONDS := 1.0

  /** How a question to the client ended. */
  datatype Reply =
    | Answered(action: ElicitAction, waited: real)
    | WindowEnded
    | NoChannel      // the elicitor could not ask
    | CallCancelled

  /** Whether the gate's close was carried out, and whether the gate learned so. */
  datatype Closing = Returned | LostBefore | LostAfter

  datatype GateResult =
    | Resolution(outcome: Outcome, approver: Option<Approver>)
    | ClientUnavailable
    | LedgerUnavailable
    | Cancelled

  function OutcomeOfAnswer(action: ElicitAction): Outcome {
    match action
    case ACCEPT => APPROVED
    case DECLINE => REJECTED
    case CANCEL => TIMED_OUT
  }

  /** Too fast a refusal: the client answered for the person. */
  predicate Unattended(reply: Reply) {
    reply.Answered? && reply.action != ACCEPT && reply.waited < UNATTENDED_ANSWER_SECONDS
  }

  predicate Reached(reply: Reply) {
    reply.WindowEnded? || (reply.Answered? && !Unattended(reply))
  }

  /** The outcome the gate closes its entry with. */
  function Intended(reply: Reply): Outcome {
    if !Reached(reply) then CANCELLED
    else if reply.WindowEnded? then TIMED_OUT
    else OutcomeOfAnswer(reply.action)
  }

  predicate IsAnswer(o: Outcome) {
    o == APPROVED || o == REJECTED
  }

  function AnswerOf(o: Outcome, session: Approver): Option<Approver> {
    if IsAnswer(o) then Some(session) else None
  }

  /** One attempt to close a hold, which the connection to the ledger may lose on either way. */
  method TryClose(ledger: HoldLedger, id: HoldId, outcome: Outcome, approver: Option<Approver>, closing: Closing)
    returns (r: Option<Outcome>)
    modifies ledger.store
    ensures ledger.store.runs == if closing.LostBefore? then old(ledger.store.runs)
                                 else WithClosed(old(ledger.store.runs), id, outcome, Attributed(approver))
    ensures r.Some? <==> closing.Returned? && id in old(ledger.store.runs)
    ensures r.Some? ==> id in ledger.store.runs && Some(r.value) == Read(ledger.store.runs[id])
  {
    if closing.LostBefore? {
      return None;
    }
    var recorded := ledger.CloseHold(id, outcome, approver);
    return if closing.Returned? then recorded else None;
  }

  /** Whom a gate names as the approver: its own session's person if the outcome is its own
      answer or an approval. */
  function ReportedBy(outcome: Outcome, reply: Reply, session: Approver): Option<Approver> {
    if outcome == APPROVED || outcome == Intended(reply) then AnswerOf(outcome, session) else None
  }

  /** `elicitation_gate` from the client's reply on. Whatever happened to the hold while the
      client was asked, and however the close ends: approved is returned only if it is on
      record, and an outcome whose close returned is the one on record. */
  method SettleGate(ledger: HoldLedger, id: HoldId, reply: Reply, session: Approver, closing: Closing)
    returns (r: GateResult)
    modifies ledger.store
    ensures ledger.store.runs == if closing.LostBefore? then old(ledger.store.runs)
                                 else WithClosed(old(ledger.store.runs), id, Intended(reply),
                                                 Attributed(AnswerOf(Intended(reply), session)))
    ensures r == Cancelled <==> reply.CallCancelled?
    ensures r == ClientUnavailable <==> reply.NoChannel? || Unattended(reply)
    ensures r == LedgerUnavailable <==>
              Intended(reply) == APPROVED && (!closing.Returned? || id !in old(ledger.store.runs))
    ensures r.Resolution? && r.outcome == APPROVED ==>
              id in ledger.store.runs && Read(ledger.store.runs[id]) == Some(APPROVED)
    ensures r.Resolution? && closing.Returned? && id in old(ledger.store.runs) ==>
              Read(ledger.store.runs[id]) == Some(r.outcome)
    ensures r.Resolution? && !(closing.Returned? && id in old(ledger.store.runs)) ==> r.outcome == Intended(reply)
    ensures r.Resolution? ==> r.approver == ReportedBy(r.outcome, reply, session)
    ensures id in old(ledger.store.runs) ==>
              var hold := old(ledger.store.runs)[id];
              && (r.Resolution? <==> Resolved(reply, closing))
              && (r.Resolution? ==> r.outcome == OutcomeGiven(hold, reply, session, closing))
              && (r.Resolution? ==> ledger.store.runs[id] == AfterClose(hold, reply, session, closing))
    ensures id in old(ledger.store.runs) && old(ledger.store.runs)[id].status == Awaiting && closing.Returned? ==>
              var was, now := old(ledger.store.runs)[id], ledger.store.runs[id];
              match reply
              case Answered(ACCEPT, _) =>
                r == Resolution(APPROVED, Some(session)) && now == was.(status := Completed, approver := Some(session))
              case Answered(DECLINE, waited) =>
                if waited >= 1.0 then
                  r == Resolution(REJECTED, Some(session)) && now == was.(status := Status.Rejected, approver := Some(session))
                else r == ClientUnavailable && now == was.(status := Canceled)
              case Answered(CANCEL, waited) =>
                if waited >= 1.0 then r == Resolution(TIMED_OUT, None) && now == was.(status := TimedOut)
                else r == ClientUnavailable && now == was.(status := Canceled)
              case WindowEnded => r == Resolution(TIMED_OUT, None) && now == was.(status := TimedOut)
              case NoChannel => r == ClientUnavailable && now == was.(status := Canceled)
              case CallCancelled => r == Cancelled && now == was.(status := Canceled)
    ensures id in old(ledger.store.runs) && old(ledger.store.runs)[id].status != Awaiting ==>
              ledger.store.runs == old(ledger.store.runs)
    ensures id in old(ledger.store.runs) && closing.Returned?
            && (reply.WindowEnded? || (reply.Answered? && (reply.action == ACCEPT || reply.waited >= 1.0))) ==>
              match old(ledger.store.runs)[id].status
              case Completed => r == Resolution(APPROVED, Some(session))
              case Rejected => r == Resolution(REJECTED, if reply.Answered? && reply.action == DECLINE then Some(session) else None)
              case TimedOut => r == Resolution(TIMED_OUT, None)
              case Canceled => r == Resolution(CANCELLED, None)
              case _ => true
    ensures !closing.Returned? ==>
              match reply
              case Answered(ACCEPT, _) => r == LedgerUnavailable
              case Answered(DECLINE, waited) => waited >= 1.0 ==> r == Resolution(REJECTED, Some(session))
              case Answered(CANCEL, waited) => waited >= 1.0 ==> r == Resolution(TIMED_OUT, None)
              case WindowEnded => r == Resolution(TIMED_OUT, None)
              case _ => true
    ensures forall other :: other != id ==>
              (other in ledger.store.runs <==> other in old(ledger.store.runs))
              && (other in ledger.store.runs ==> ledger.store.runs[other] == old(ledger.store.runs)[other])
  {
    if !Reached(reply) {
      var _ := TryClose(ledger, id, CANCELLED, None, closing);
      return if reply.CallCancelled? then Cancelled else ClientUnavailable;
    }
    var outcome := Intended(reply);
    var approver := AnswerOf(outcome, session);
    var recorded := TryClose(ledger, id, outcome, approver, closing);
    if recorded.None? {
      if outcome == APPROVED {
        return LedgerUnavailable;
      }
      recorded := Some(outcome);
    }
    if recorded.value != outcome {
      outcome := recorded.value;
      approver := if outcome == APPROVED then Some(session) else None;
    }
    return Resolution(outcome, approver);
  }

  /** What others do to the ledger while the client is asked. */
  datatype Deed = Deed(op: Op, at: real)

  /** The first `n` deeds, as far as they are possible when their time comes. */
  function Happened(runs: Runs, deeds: seq<Deed>, n: nat): Runs
    requires n <= |deeds|
  {
    if n == 0 then runs
    else
      var before := Happened(runs, deeds, n - 1);
      if Possible(before, deeds[n - 1].op, deeds[n - 1].at) then Effect(before, deeds[n - 1].op, deeds[n - 1].at)
      else before
  }

  /** A deed that opens a new hold under this id. */
  predicate Opens(deed: Deed, id: HoldId) {
    (deed.op.Open? || deed.op.ByPolicy?) && deed.op.id == id
  }

  lemma {:induction false} HappenedKeeps(runs: Runs, deeds: seq<Deed>, n: nat, id: HoldId)
    requires n <= |deeds|
    ensures id in runs ==> id in Happened(runs, deeds, n) && HoldKept(runs[id], Happened(runs, deeds, n)[id])
    ensures id !in runs && (forall i :: 0 <= i < n ==> !Opens(deeds[i], id)) ==> id !in Happened(runs, deeds, n)
  {
    if n == 0 {
    } else {
      HappenedKeeps(runs, deeds, n - 1, id);
      var before := Happened(runs, deeds, n - 1);
      if id in before && Possible(before, deeds[n - 1].op, deeds[n - 1].at) {
        StepKeeps(before, deeds[n - 1].op, deeds[n - 1].at, id);
        hide Effect, Possible;
      }
    }
  }

  method Others(ledger: HoldLedger, deeds: seq<Deed>)
    modifies ledger.store
    ensures ledger.store.runs == Happened(old(ledger.store.runs), deeds, |deeds|)
  {
    for i := 0 to |deeds|
      invariant ledger.store.runs == Happened(old(ledger.store.runs), deeds, i)
    {
      if Possible(ledger.store.runs, deeds[i].op, deeds[i].at) {
        ledger.store.runs := Effect(ledger.store.runs, deeds[i].op, deeds[i].at);
      }
    }
  }

  /** `elicitation_gate`: the entry exists before the question is put to the client, or the call
      is refused with nothing changed. Then anybody may act on the ledger until the reply. */
  method ElicitationGate(ledger: HoldLedger, newId: HoldId, key: Option<string>, timeout: Option<real>, now: real,
                         opens: bool, deeds: seq<Deed>, reply: Reply, session: Approver, closing: Closing)
    returns (r: GateResult, id: HoldId, ghost asked: Runs)
    requires newId !in ledger.store.runs
    modifies ledger.store
    ensures !opens ==> r == LedgerUnavailable && ledger.store.runs == old(ledger.store.runs)
    ensures opens ==> id in asked
                      && asked == if id == newId then Effect(old(ledger.store.runs), Open(newId, key, WindowOf(timeout)), now)
                                  else Expired(old(ledger.store.runs), now)
    ensures opens && id != newId ==> key.Some? && IsNewest(asked, id, key.value, now)
    ensures opens && id == newId ==> Possible(old(ledger.store.runs), Open(newId, key, WindowOf(timeout)), now)
    ensures opens ==>
              var before := Happened(asked, deeds, |deeds|);
              ledger.store.runs == if closing.LostBefore? then before
                                   else WithClosed(before, id, Intended(reply), Attributed(AnswerOf(Intended(reply), session)))
    ensures opens ==> id in ledger.store.runs
    ensures r == Cancelled <==> opens && reply.CallCancelled?
    ensures r == ClientUnavailable <==> opens && (reply.NoChannel? || Unattended(reply))
    ensures r == LedgerUnavailable <==> !opens || (Intended(reply) == APPROVED && !closing.Returned?)
    ensures r.Resolution? && r.outcome == APPROVED ==> Read(ledger.store.runs[id]) == Some(APPROVED)
    ensures r.Resolution? && closing.Returned? ==> Read(ledger.store.runs[id]) == Some(r.outcome)
    ensures r.Resolution? && !closing.Returned? ==> r.outcome == Intended(reply)
    ensures r.Resolution? ==> r.approver == ReportedBy(r.outcome, reply, session)
    ensures opens && deeds == [] && id == newId && closing.Returned? ==>
              var status := ledger.store.runs[id].status;
              match reply
              case Answered(ACCEPT, _) => r == Resolution(APPROVED, Some(session)) && status == Completed
              case Answered(DECLINE, waited) =>
                waited >= 1.0 ==> r == Resolution(REJECTED, Some(session)) && status == Status.Rejected
              case Answered(CANCEL, waited) => waited >= 1.0 ==> r == Resolution(TIMED_OUT, None) && status == TimedOut
              case WindowEnded => r == Resolution(TIMED_OUT, None) && status == TimedOut
              case NoChannel => r == ClientUnavailable && status == Canceled
              case CallCancelled => r == Cancelled && status == Canceled
  {
    id := newId;
    asked := ledger.store.runs;
    if !opens {
      return LedgerUnavailable, id, asked;
    }
    id := ledger.CreateHold(newId, key, timeout, now);
    asked := ledger.store.runs;
    Others(ledger, deeds);
    HappenedKeeps(asked, deeds, |deeds|, id);
    hide Happened, Effect;
    r := SettleGate(ledger, id, reply, session, closing);
  }

  /** Under every race of prompt, late answer, dashboard, timeout and cancel: the outcome the
      gate resolved with is what the ledger says at every later point, and what any later
      close returns. */
  lemma {:induction false} GateAgreement(trace: seq<Runs>, ops: seq<Op>, times: seq<real>, n: nat, j: nat, id: HoldId,
                      reply: Reply, session: Approver, other: Outcome, person: Approver)
    requires IsHistory(trace, ops, times) && n < |ops| && n < j < |trace| && id in trace[n]
    requires Reached(reply) && ops[n] == Close(id, Intended(reply), Attributed(AnswerOf(Intended(reply), session)))
    ensures id in trace[n + 1] && id in trace[j]
    ensures Read(trace[n + 1][id]).Some?
    ensures Read(trace[j][id]) == Read(trace[n + 1][id])
    ensures CloseReturns(trace[j][id], other, person) == Read(trace[n + 1][id]).value
    ensures Read(trace[n][id]).Some? ==> Read(trace[j][id]) == Read(trace[n][id])
    ensures Read(trace[n][id]).None? ==> Read(trace[j][id]) == Some(Intended(reply))
  {
    var outcome, by_ := Intended(reply), Attributed(AnswerOf(Intended(reply), session));
    assert trace[n + 1] == Effect(trace[n], ops[n], times[n]);
    LedgerAgreement(trace, ops, times, n, j, id, outcome, by_, other, person);
    LedgerAgreement(trace, ops, times, n, n + 1, id, outcome, by_, other, person);
  }

  /** A hold between two operations of the ledger. */
  predicate AtRest(r: Run) {
    && (r.status == Awaiting || r.status == Completed || r.status == Status.Rejected || r.status == TimedOut
        || r.status == Canceled)
    && (r.approver.Some? <==> r.status == Completed || r.status == Status.Rejected)
  }

  /** A reply the gate resolves: it counts, and an approval whose close did not return is refused
      instead. */
  predicate Resolved(reply: Reply, closing: Closing) {
    Reached(reply) && (Intended(reply) == APPROVED ==> closing.Returned?)
  }

  /** The hold after the gate's close, as far as the ledger heard of it. */
  function AfterClose(r: Run, reply: Reply, session: Approver, closing: Closing): Run {
    if closing.LostBefore? then r else Closed(r, Intended(reply), Attributed(AnswerOf(Intended(reply), session)))
  }

  /** The outcome the gate resolves with: what is on record, if it learned so. */
  function OutcomeGiven(r: Run, reply: Reply, session: Approver, closing: Closing): Outcome {
    if closing.Returned? then OutcomeOn(AfterClose(r, reply, session, closing).status) else Intended(reply)
  }

  /** For every reply the gate resolves and every fate of its close: the approver it reports is
      the one on record exactly if its own close decided; or, where the close returned, nobody
      decided or this session's person gave the very answer that is on record; or, where it did
      not, the approver on record is the one its own answer stands for. */
  lemma {:induction false} ReportedApprover(r: Run, reply: Reply, session: Approver, closing: Closing)
    requires AtRest(r) && Resolved(reply, closing)
    ensures ReportedBy(OutcomeGiven(r, reply, session, closing), reply, session)
            == AfterClose(r, reply, session, closing).approver <==>
            || (r.status == Awaiting && !closing.LostBefore?)
            || (if closing.Returned? then
                  r.approver.None? || (r.approver == Some(session) && (r.status == Status.Rejected ==> Intended(reply) == REJECTED))
                else r.approver == AnswerOf(Intended(reply), session))
  {
    var after := AfterClose(r, reply, session, closing);
    var reported := ReportedBy(OutcomeGiven(r, reply, session, closing), reply, session);
    if r.status == Awaiting && !closing.LostBefore? {
      assert reported == AnswerOf(Intended(reply), session);
    } else {
      assert after == r;
    }
  }

  /** The worst case: a person declines a call that somebody else has approved on the dashboard
      in the meantime. The call runs, and the one who declined is named as its approver. */
  lemma {:induction false} DeclinedYetApprover(id: HoldId, session: Approver, boss: Approver)
    returns (trace: seq<Runs>, ops: seq<Op>, times: seq<real>)
    requires session != boss
    ensures IsHistory(trace, ops, times) && |ops| == 3 && id in trace[2] && id in trace[3]
    ensures trace[2][id].approver == Some(boss) && trace[3] == trace[2]
    ensures var reply := Answered(DECLINE, 5.0);
            && Reached(reply) && ops[2] == Close(id, Intended(reply), Attributed(AnswerOf(Intended(reply), session)))
            && Read(trace[3][id]) == Some(APPROVED) && ReportedBy(APPROVED, reply, session) == Some(session)
            && OutcomeGiven(trace[2][id], reply, session, Returned) == APPROVED
  {
    var ask, decide, close := Open(id, None, 180.0), Decide(id, true, boss), Close(id, REJECTED, session);
    var none: Runs := map[];
    var held := Effect(none, ask, 0.0);
    assert held == map[id := Opened(None, 180.0, 0.0)];
    assert Expired(held, 0.0) == held;
    var decided := Effect(held, decide, 0.0);
    assert decided == map[id := Closed(Opened(None, 180.0, 0.0), APPROVED, boss)];
    trace, ops, times := [none, held, decided, Effect(decided, close, 0.0)], [ask, decide, close], [0.0, 0.0, 0.0];
  }

  /** And with nobody at all on record: a person declines, the close never reaches the ledger, and
      the gate reports a rejection by that person on a hold that is still pending. */
  lemma {:induction false} RejectedByNobody(session: Approver, now: real)
    ensures var hold, reply := Opened(None, DEFAULT_WINDOW, now), Answered(DECLINE, 5.0);
            && AtRest(hold) && Resolved(reply, LostBefore)
            && AfterClose(hold, reply, session, LostBefore) == hold && hold.status == Awaiting && hold.approver == None
            && ReportedBy(OutcomeGiven(hold, reply, session, LostBefore), reply, session) == Some(session)
  {
  }

  // ----- Asking on a durable hold -----------------------------------------------------

  datatype AskResult = Undecided | OnRecord(outcome: Outcome) | NotAsked | NotRecorded | TornDown

  /** `ask_on_hold`: only a person's answer touches the hold; anything else leaves it pending. */
  method AskOnHold(ledger: HoldLedger, id: HoldId, reply: Reply, session: Approver, closing: Closing)
    returns (r: AskResult)
    modifies ledger.store
    ensures ledger.store.runs == if closing.LostBefore? || !IsAnswer(Intended(reply)) then old(ledger.store.runs)
                                 else WithClosed(old(ledger.store.runs), id, Intended(reply), session)
    ensures r == NotAsked <==> reply.NoChannel? || Unattended(reply)
    ensures r == NotRecorded <==>
              Intended(reply) == APPROVED && (!closing.Returned? || id !in old(ledger.store.runs))
    ensures r == OnRecord(APPROVED) ==> id in ledger.store.runs && Read(ledger.store.runs[id]) == Some(APPROVED)
    ensures r.OnRecord? && closing.Returned? && id in old(ledger.store.runs) ==>
              Read(ledger.store.runs[id]) == Some(r.outcome)
    ensures r.OnRecord? && !(closing.Returned? && id in old(ledger.store.runs)) ==> r.outcome == REJECTED == Intended(reply)
    ensures r == Undecided <==> Reached(reply) && !IsAnswer(Intended(reply))
    ensures r == TornDown <==> reply.CallCancelled?
    ensures id in old(ledger.store.runs) && old(ledger.store.runs)[id].status == Awaiting && closing.Returned? ==>
              var was, now := old(ledger.store.runs)[id], ledger.store.runs[id];
              match reply
              case Answered(ACCEPT, _) =>
                r == OnRecord(APPROVED) && now == was.(status := Completed, approver := Some(session))
              case Answered(DECLINE, waited) =>
                if waited >= 1.0 then
                  r == OnRecord(REJECTED) && now == was.(status := Status.Rejected, approver := Some(session))
                else r == NotAsked && now == was
              case Answered(CANCEL, waited) => r == (if waited >= 1.0 then Undecided else NotAsked) && now == was
              case WindowEnded => r == Undecided && now == was
              case NoChannel => r == NotAsked && now == was
              case CallCancelled => r == TornDown && now == was
  {
    if reply.CallCancelled? {
      return TornDown;
    }
    if !Reached(reply) {
      return NotAsked;
    }
    if !IsAnswer(Intended(reply)) {
      return Undecided;
    }
    var recorded := TryClose(ledger, id, Intended(reply), Some(session), closing);
    if recorded.Some? {
      return OnRecord(recorded.value);
    }
    return if Intended(reply) == APPROVED then NotRecorded else OnRecord(REJECTED);
  }

  /** The late sink: an answer after the wait decides the hold if it is still pending, and
      a dismissal decides nothing. */
  method RecordLate(ledger: HoldLedger, id: HoldId, action: ElicitAction, session: Approver)
    modifies ledger.store
    ensures ledger.store.runs == if action == CANCEL then old(ledger.store.runs)
                                 else WithClosed(old(ledger.store.runs), id, OutcomeOfAnswer(action), session)
    ensures id in old(ledger.store.runs) && old(ledger.store.runs)[id].status == Awaiting ==>
              var was, now := old(ledger.store.runs)[id], ledger.store.runs[id];
              match action
              case ACCEPT => now == was.(status := Completed, approver := Some(session))
              case DECLINE => now == was.(status := Status.Rejected, approver := Some(session))
              case CANCEL => now == was
    ensures id !in old(ledger.store.runs) || old(ledger.store.runs)[id].status != Awaiting ==>
              ledger.store.runs == old(ledger.store.runs)
  {
    if IsAnswer(OutcomeOfAnswer(action)) {
      var _ := TryClose(ledger, id, OutcomeOfAnswer(action), Some(session), Returned);
    }
  }
}
