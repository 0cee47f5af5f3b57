/** Questions returned inside results: a call that asks returns, and its retry runs it again
    from the start with the answers and the signed state (mcp_core/mrtr.py). */
module Mrtr {
  import opened Options
  import opened ApprovalStore
  import opened ApprovalLedger
  import opened ApprovalGates
  import opened RequestState

  /** What the call asks, in order: an approval of a held write, or a plain prompt. */
  datatype Question = Gate | Prompt

  class MrtrContext {
    const responses: map<QuestionKey, ElicitAction>
    var holds: map<QuestionKey, HoldId>
    var pending: set<QuestionKey>
    var counter: nat

    /** A retry brings the holds its state verified to, a first pass none. */
    constructor (responses: map<QuestionKey, ElicitAction>, holds: map<QuestionKey, HoldId>)
      ensures this.responses == responses && this.holds == holds && pending == {} && counter == 0
    {
      this.responses, this.holds, pending, counter := responses, holds, {}, 0;
    }

    method NextKey() returns (key: QuestionKey)
      modifies `counter
      ensures counter == old(counter) + 1 && key == QuestionKey(counter)
    {
      counter := counter + 1;
      key := QuestionKey(counter);
    }
  }

  datatype Turn =
    | InputRequired                     // the question goes back to the client
    | AlreadyUsed                       // the answer was used before
    | Prompted(action: ElicitAction)
    | Decided(result: GateResult)

  /** `mrtr_elicitor`: the answer this retry brought, or the question. */
  method PromptTurn(ctx: MrtrContext) returns (turn: Turn)
    modifies ctx
    ensures ctx.counter == old(ctx.counter) + 1 && ctx.holds == old(ctx.holds)
    ensures var key := QuestionKey(ctx.counter);
            if key in ctx.responses then turn == Prompted(ctx.responses[key]) && ctx.pending == old(ctx.pending)
            else turn == InputRequired && ctx.pending == old(ctx.pending) + {key}
  {
    var key := ctx.NextKey();
    if key in ctx.responses {
      return Prompted(ctx.responses[key]);
    }
    ctx.pending := ctx.pending + {key};
    return InputRequired;
  }

  /** `mrtr_gate`: opens the entry once, before the question is asked, and closes the same
      entry with the answer, whatever others do to the ledger in between. Approved is returned
      only if it is on record. Without an entry nothing is asked and nothing changes. */
  method GateTurn(ctx: MrtrContext, signer: StateSigner, ledger: HoldLedger, newId: HoldId, window: real, now: real,
                  session: Approver, opens: bool, deeds: seq<Deed>, closing: Closing)
    returns (turn: Turn)
    requires newId !in ledger.store.runs
    modifies ctx, signer, ledger.store
    ensures ctx.counter == old(ctx.counter) + 1
    ensures var key := QuestionKey(ctx.counter);
            key !in old(ctx.holds) && !opens ==>
              && turn == Decided(LedgerUnavailable) && ctx.holds == old(ctx.holds) && ctx.pending == old(ctx.pending)
              && ledger.store.runs == old(ledger.store.runs) && signer.used == old(signer.used)
    ensures var key := QuestionKey(ctx.counter);
            key in old(ctx.holds) || opens ==>
              && ctx.holds == (if key in old(ctx.holds) then old(ctx.holds) else old(ctx.holds)[key := newId])
              && ctx.pending == (if key in ctx.responses then old(ctx.pending) else old(ctx.pending) + {key})
              && (turn == InputRequired <==> key !in ctx.responses)
              && ledger.store.runs ==
                 GateEffect(Happened(if key in old(ctx.holds) then old(ledger.store.runs)
                                     else Effect(old(ledger.store.runs), Open(newId, None, WindowOf(Some(window))), now),
                                     deeds, |deeds|),
                            ctx.holds[key], turn, closing, if key in ctx.responses then ctx.responses[key] else CANCEL, session)
              && (turn == AlreadyUsed <==> key in ctx.responses && !Fresh(old(signer.used), ctx.holds[key], now))
              && signer.used == (if turn == InputRequired then old(signer.used)
                                 else Consumed(old(signer.used), ctx.holds[key], now))
              && (turn.Decided? ==>
                    (GoesOn(turn) <==> closing.Returned? && OnRecordAs(ledger.store.runs, ctx.holds[key], APPROVED)))
              && (turn.Decided? && turn.result.Resolution? && closing.Returned? && ctx.holds[key] in ledger.store.runs ==>
                    OnRecordAs(ledger.store.runs, ctx.holds[key], turn.result.outcome))
    ensures turn.Decided? || turn == InputRequired || turn == AlreadyUsed
    ensures turn.Decided? ==> turn.result.Resolution? || turn.result.LedgerUnavailable?
    ensures GoesOn(turn) ==> turn.result.approver == Some(session)
    ensures deeds == [] && closing.Returned? && QuestionKey(ctx.counter) in old(ctx.holds) ==>
              var key := QuestionKey(ctx.counter);
              var hold := old(ctx.holds)[key];
              var unused := hold !in old(signer.used) || now - old(signer.used)[hold] > 900.0;
              && (key in ctx.responses && !unused ==> turn == AlreadyUsed && ledger.store.runs == old(ledger.store.runs))
              && (key in ctx.responses && unused && hold in old(ledger.store.runs)
                  && old(ledger.store.runs)[hold].status == Awaiting ==>
                    && hold in ledger.store.runs && hold in signer.used && signer.used[hold] == now
                    && var was, is_ := old(ledger.store.runs)[hold], ledger.store.runs[hold];
                       match ctx.responses[key]
                       case ACCEPT =>
                         && turn == Decided(Resolution(APPROVED, Some(session)))
                         && is_ == was.(status := Completed, approver := Some(session))
                       case DECLINE =>
                         && turn == Decided(Resolution(REJECTED, Some(session)))
                         && is_ == was.(status := Status.Rejected, approver := Some(session))
                       case CANCEL =>
                         turn == Decided(Resolution(TIMED_OUT, None)) && is_ == was.(status := TimedOut))
  {
    var key := ctx.NextKey();
    if key !in ctx.holds {
      if !opens {
        return Decided(LedgerUnavailable);
      }
      var id := ledger.CreateHold(newId, None, Some(window), now);
      ctx.holds := ctx.holds[key := id];
    }
    var hold := ctx.holds[key];
    Others(ledger, deeds);
    hide Happened, Effect;
    if key !in ctx.responses {
      ctx.pending := ctx.pending + {key};
      return InputRequired;
    }
    var first := signer.Consume(hold, now);
    if !first {
      return AlreadyUsed;
    }
    // A returned answer was always put to somebody, so it is never too fast.
    var reply := Answered(ctx.responses[key], UNATTENDED_ANSWER_SECONDS);
    var result := SettleGate(ledger, hold, reply, session, closing);
    return Decided(result);
  }

  predicate OnRecordAs(runs: Runs, hold: HoldId, outcome: Outcome) {
    hold in runs && Read(runs[hold]) == Some(outcome)
  }

  /** The close of a gate, if the turn got that far and the ledger heard of it. */
  function GateEffect(runs: Runs, hold: HoldId, turn: Turn, closing: Closing, action: ElicitAction,
            session: Approver): Runs {
    var outcome := OutcomeOfAnswer(action);
    if turn.Decided? && !closing.LostBefore? then WithClosed(runs, hold, outcome, Attributed(AnswerOf(outcome, session)))
    else runs
  }

  // ----- Passes of one call -----------------------------------------------------------

  /** The holds a pass ends with that opens, or finds, the entries of the gates among its first
      `n` questions: each gate question not yet carried has opened the entry `ids[m]`. */
  function Carried(script: seq<Question>, n: nat, holds: map<QuestionKey, HoldId>, ids: seq<HoldId>)
    : map<QuestionKey, HoldId>
    requires n <= |script| == |ids|
  {
    if n == 0 then holds
    else
      var before := Carried(script, n - 1, holds, ids);
      if script[n - 1] == Gate && QuestionKey(n) !in before then before[QuestionKey(n) := ids[n - 1]] else before
  }

  /** The call goes on after this question. */
  predicate GoesOn(turn: Turn) {
    turn.Prompted? || (turn.Decided? && turn.result.Resolution? && turn.result.outcome == APPROVED)
  }

  /** One pass: what it started from (carried holds, fresh ids, the retry's answers, the signer's
      memory, the fate of its closes), how far it got, for how many questions entries are carried,
      and how it ended: with the signer's memory when its last question came up, and the ledger
      it left. */
  datatype PassRecord = PassRecord(before: map<QuestionKey, HoldId>, ids: seq<HoldId>,
                                   responses: map<QuestionKey, ElicitAction>, used: map<HoldId, real>, at: real,
                                   closings: seq<Closing>, reached: nat, carried: nat, turn: Turn,
                                   after: map<QuestionKey, HoldId>, memory: map<HoldId, real>, ledger: Runs)

  /** The retry brought an answer to question `m`, and to a gate one that was not used yet and
      whose close returned. */
  ghost predicate Passed(script: seq<Question>, pass: PassRecord, m: nat)
    requires 1 <= m <= |script|
  {
    && QuestionKey(m) in pass.responses
    && (script[m - 1] == Gate ==>
          && QuestionKey(m) in pass.after && Fresh(pass.used, pass.after[QuestionKey(m)], pass.at)
          && m <= |pass.closings| && pass.closings[m - 1].Returned?)
  }

  /** The last question, if it is a gate that has its entry and its answer: the answer was used
      before, or the pass goes on exactly if the close returned and the approval is on record. */
  ghost predicate LastTurn(script: seq<Question>, pass: PassRecord)
    requires 0 < pass.reached <= |script| == |pass.closings|
  {
    var key := QuestionKey(pass.reached);
    pass.carried == pass.reached && key in pass.responses && script[pass.reached - 1] == Gate ==>
      && key in pass.after
      && (pass.turn == AlreadyUsed <==> !Fresh(pass.memory, pass.after[key], pass.at))
      && (Fresh(pass.memory, pass.after[key], pass.at) ==>
            (GoesOn(pass.turn) <==>
               pass.closings[pass.reached - 1].Returned? && OnRecordAs(pass.ledger, pass.after[key], APPROVED)))
  }

  /** Within a pass, only the holds of the gates among its first `n` questions are used. */
  ghost predicate OnlyUsed(script: seq<Question>, n: nat, holds: map<QuestionKey, HoldId>, used: map<HoldId, real>,
                           later: map<HoldId, real>, now: real)
    requires n <= |script|
  {
    forall h :: Fresh(used, h, now) && NotAmong(script, n, holds, h) ==> Fresh(later, h, now)
  }

  ghost predicate NotAmong(script: seq<Question>, n: nat, holds: map<QuestionKey, HoldId>, h: HoldId)
    requires n <= |script|
  {
    forall m :: 1 <= m <= n && script[m - 1] == Gate && QuestionKey(m) in holds ==> holds[QuestionKey(m)] != h
  }

  /** What every pass does. */
  ghost predicate IsPass(script: seq<Question>, pass: PassRecord) {
    && |pass.ids| == |pass.closings| == |script|
    && 0 < pass.reached <= |script| && pass.carried <= pass.reached <= pass.carried + 1
    && pass.after == Carried(script, pass.carried, pass.before, pass.ids)
    && (forall m :: 1 <= m < pass.reached ==> Passed(script, pass, m))
    && (GoesOn(pass.turn) ==> pass.reached == |script| && Passed(script, pass, pass.reached))
    && (pass.carried < pass.reached ==>
          pass.turn == Decided(LedgerUnavailable) && QuestionKey(pass.reached) !in pass.before)
    && (pass.turn == InputRequired <==> pass.carried == pass.reached && QuestionKey(pass.reached) !in pass.responses)
    && StillUsed(pass.used, pass.memory, pass.at)
    && OnlyUsed(script, pass.reached - 1, pass.after, pass.used, pass.memory, pass.at)
    && LastTurn(script, pass) && AllApproved(script, pass.reached - 1, pass.after, pass.ledger)
  }

  /** Every gate among the first `n` questions is approved on the record. */
  predicate AllApproved(script: seq<Question>, n: nat, holds: map<QuestionKey, HoldId>, runs: Runs)
    requires n <= |script|
  {
    forall m :: 1 <= m <= n && script[m - 1] == Gate ==>
      QuestionKey(m) in holds && OnRecordAs(runs, holds[QuestionKey(m)], APPROVED)
  }

  /** One turn: what it does to the carried holds, the signer's memory and the ledger. */
  ghost predicate TurnDone(script: seq<Question>, start: PassRecord, n: nat, holds: map<QuestionKey, HoldId>,
                           used: map<HoldId, real>, runs: Runs, turn: Turn, carried: nat,
                           more: map<QuestionKey, HoldId>, later: map<HoldId, real>, after: Runs)
    requires n < |script| == |start.ids| == |start.closings|
  {
    var key, gate := QuestionKey(n + 1), script[n] == Gate;
    && n <= carried <= n + 1
    && (carried == n ==> turn == Decided(LedgerUnavailable) && more == holds && gate && key !in holds)
    && (carried == n + 1 ==> more == (if gate && key !in holds then holds[key := start.ids[n]] else holds)
                             && (turn == InputRequired <==> key !in start.responses))
    && (carried == n + 1 && gate && key in start.responses ==>
          && (turn == AlreadyUsed <==> !Fresh(used, more[key], start.at))
          && (Fresh(used, more[key], start.at) ==>
                (GoesOn(turn) <==> start.closings[n].Returned? && OnRecordAs(after, more[key], APPROVED))))
    && (GoesOn(turn) ==> carried == n + 1 && key in start.responses && turn != AlreadyUsed)
    && StillUsed(used, later, start.at)
    && (forall h :: Fresh(used, h, start.at) && !(gate && key in more && more[key] == h) ==> Fresh(later, h, start.at))
    && (forall id :: id in runs ==> id in after && HoldKept(runs[id], after[id]))
    && (forall id :: id in after && id !in runs ==> id == start.ids[n] || id !in start.ids)
    && (key in more && key !in holds ==> more[key] in after)
  }

  /** Nothing used at the time is forgotten within a pass. */
  ghost predicate StillUsed(used: map<HoldId, real>, later: map<HoldId, real>, now: real) {
    forall h :: Fresh(later, h, now) ==> Fresh(used, h, now)
  }

  /** Others open their holds under ids of their own. */
  ghost predicate Elsewhere(deeds: seq<Deed>, ids: seq<HoldId>) {
    forall d, id :: d in deeds && id in ids ==> !Opens(d, id)
  }

  /** What the ledger keeps through one turn about a gate. */
  lemma {:induction false} GateKeeps(runs: Runs, base: Runs, deeds: seq<Deed>, ids: seq<HoldId>, newId: HoldId,
            after: Runs, hold: HoldId, turn: Turn, closing: Closing, action: ElicitAction, session: Approver)
    requires Elsewhere(deeds, ids) && newId !in runs
    requires base == runs || (newId in base && base == runs[newId := base[newId]])
    requires after == GateEffect(Happened(base, deeds, |deeds|), hold, turn, closing, action, session)
    ensures forall id :: id in runs ==> id in after && HoldKept(runs[id], after[id])
    ensures forall id :: id in after && id !in runs ==> id == newId || id !in ids
    ensures base != runs ==> newId in after
  {
    forall id | id in base
      ensures id in after && HoldKept(base[id], after[id])
    {
      HappenedKeeps(base, deeds, |deeds|, id);
    }
    forall id | id in after && id !in runs
      ensures id == newId || id !in ids
    {
      HappenedKeeps(base, deeds, |deeds|, id);
    }
    hide HoldKept;
  }

  /** One question, a gate or a prompt. */
  method NextTurn(ctx: MrtrContext, signer: StateSigner, ledger: HoldLedger, script: seq<Question>, n: nat,
                  newId: HoldId, window: real, now: real, session: Approver, opens: bool, deeds: seq<Deed>,
                  closing: Closing, ghost start: PassRecord)
    returns (turn: Turn, ghost carried: nat)
    requires n < |script| == |start.ids| == |start.closings| && start.closings[n] == closing
    requires newId !in ledger.store.runs && newId == start.ids[n] && ctx.counter == n
    requires start.responses == ctx.responses && start.at == now && Elsewhere(deeds, start.ids)
    modifies ctx, signer, ledger.store
    ensures ctx.counter == n + 1
    ensures TurnDone(script, start, n, old(ctx.holds), old(signer.used), old(ledger.store.runs), turn, carried,
                     ctx.holds, signer.used, ledger.store.runs)
    ensures ctx.pending == old(ctx.pending) + if turn == InputRequired then {QuestionKey(n + 1)} else {}
  {
    ghost var key := QuestionKey(n + 1);
    carried := if script[n] == Gate && key !in ctx.holds && !opens then n else n + 1;
    if script[n] == Gate {
      ghost var runs := ledger.store.runs;
      ghost var base := if key in ctx.holds then runs else Effect(runs, Open(newId, None, WindowOf(Some(window))), now);
      turn := GateTurn(ctx, signer, ledger, newId, window, now, session, opens, deeds, closing);
      if carried == n + 1 {
        GateKeeps(runs, base, deeds, start.ids, newId, ledger.store.runs, ctx.holds[key], turn, closing,
                  if key in ctx.responses then ctx.responses[key] else CANCEL, session);
      }
      hide GateEffect, Happened;
    } else {
      turn := PromptTurn(ctx);
    }
  }

  /** The first `n` questions were all answered, each gate with an unused answer. */
  ghost predicate SoFar(script: seq<Question>, start: PassRecord, n: nat, holds: map<QuestionKey, HoldId>,
                        used: map<HoldId, real>)
    requires n <= |script|
  {
    && |start.ids| == |start.closings| == |script| && holds == Carried(script, n, start.before, start.ids)
    && StillUsed(start.used, used, start.at) && OnlyUsed(script, n, holds, start.used, used, start.at)
    && forall m :: 1 <= m <= n ==> Passed(script, start.(after := holds), m)
  }

  ghost predicate LedgerSoFar(script: seq<Question>, start: PassRecord, n: nat, holds: map<QuestionKey, HoldId>,
            runs: Runs)
    requires n <= |script|
  {
    && |start.ids| == |start.closings| == |script| && AllApproved(script, n, holds, runs)
    && (forall key :: key in holds && key !in start.before ==> holds[key] in runs)
    && (forall i :: n <= i < |script| ==> start.ids[i] !in runs)
    && (forall i, j :: 0 <= i < j < |script| ==> start.ids[i] != start.ids[j])
  }

  lemma {:induction false} PassAdvances(script: seq<Question>, start: PassRecord, n: nat, holds: map<QuestionKey,
            HoldId>,
            used: map<HoldId, real>, runs: Runs, turn: Turn, carried: nat, more: map<QuestionKey, HoldId>,
            later: map<HoldId, real>, after: Runs)
    requires n < |script| == |start.ids| == |start.closings| && SoFar(script, start, n, holds, used)
    requires TurnDone(script, start, n, holds, used, runs, turn, carried, more, later, after) && GoesOn(turn)
    ensures SoFar(script, start, n + 1, more, later)
  {
    hide Fresh, OnRecordAs;
    assert forall key :: key in holds ==> key in more && more[key] == holds[key];
    OnlyUsedNext(script, n, holds, more, start.used, used, later, start.at);
    hide OnlyUsed;
    forall m | 1 <= m <= n + 1
      ensures Passed(script, start.(after := more), m)
    {
      if m <= n {
        assert Passed(script, start.(after := holds), m);
      }
    }
  }

  lemma {:induction false} OnlyUsedNext(script: seq<Question>, n: nat, holds: map<QuestionKey, HoldId>,
            more: map<QuestionKey, HoldId>, start: map<HoldId, real>, used: map<HoldId, real>, later: map<HoldId, real>,
            now: real)
    requires n < |script| && OnlyUsed(script, n, holds, start, used, now)
    requires forall key :: key in holds ==> key in more && more[key] == holds[key]
    requires var key := QuestionKey(n + 1);
             forall h :: Fresh(used, h, now) && !(script[n] == Gate && key in more && more[key] == h) ==> Fresh(later, h, now)
    ensures OnlyUsed(script, n + 1, more, start, later, now)
  {
    hide Fresh;
    forall h | Fresh(start, h, now) && NotAmong(script, n + 1, more, h)
      ensures Fresh(later, h, now)
    {
      assert NotAmong(script, n, holds, h);
    }
  }

  lemma {:induction false} LedgerAdvances(script: seq<Question>, start: PassRecord, n: nat,
            holds: map<QuestionKey, HoldId>, used: map<HoldId, real>, runs: Runs, turn: Turn, carried: nat,
            more: map<QuestionKey, HoldId>, later: map<HoldId, real>, after: Runs)
    requires n < |script| == |start.ids| == |start.closings| && LedgerSoFar(script, start, n, holds, runs)
    requires TurnDone(script, start, n, holds, used, runs, turn, carried, more, later, after)
    ensures forall key :: key in more && key !in start.before ==> more[key] in after
    ensures GoesOn(turn) ==> LedgerSoFar(script, start, n + 1, more, after)
  {
    hide Fresh;
    assert forall key :: key in holds ==> key in more && more[key] == holds[key];
  }

  lemma {:induction false} PassedStays(script: seq<Question>, start: PassRecord, n: nat, holds: map<QuestionKey,
            HoldId>,
            pass: PassRecord, used: map<HoldId, real>, m: nat)
    requires n <= |script| && SoFar(script, start, n, holds, used) && 1 <= m <= n
    requires pass.responses == start.responses && pass.used == start.used && pass.at == start.at
    requires pass.closings == start.closings
    requires forall key :: key in holds ==> key in pass.after && pass.after[key] == holds[key]
    ensures Passed(script, pass, m)
  {
    hide Fresh, StillUsed, OnlyUsed, Carried;
    assert Passed(script, start.(after := holds), m);
  }

  /** The record of a pass that ends with the turn about question `n + 1`. */
  function Ended(start: PassRecord, n: nat, used: map<HoldId, real>, turn: Turn, carried: nat,
                 more: map<QuestionKey, HoldId>, after: Runs): PassRecord
  {
    start.(reached := n + 1, carried := carried, turn := turn, after := more, memory := used, ledger := after)
  }

  lemma {:induction false} EndsPassed(script: seq<Question>, start: PassRecord, n: nat, holds: map<QuestionKey, HoldId>,
            used: map<HoldId, real>, runs: Runs, turn: Turn, carried: nat, more: map<QuestionKey, HoldId>,
            later: map<HoldId, real>, after: Runs)
    requires n < |script| == |start.ids| == |start.closings| && SoFar(script, start, n, holds, used)
    requires TurnDone(script, start, n, holds, used, runs, turn, carried, more, later, after)
    ensures var pass := Ended(start, n, used, turn, carried, more, after);
            && (forall m :: 1 <= m <= n ==> Passed(script, pass, m))
            && (GoesOn(turn) ==> Passed(script, pass, n + 1))
  {
    var pass := Ended(start, n, used, turn, carried, more, after);
    assert forall key :: key in holds ==> key in more && more[key] == holds[key];
    hide Fresh, OnRecordAs, Carried, OnlyUsed;
    forall m | 1 <= m <= n
      ensures Passed(script, pass, m)
    {
      hide StillUsed, TurnDone;
      PassedStays(script, start, n, holds, pass, used, m);
    }
    if GoesOn(turn) && script[n] == Gate {
      assert Fresh(used, more[QuestionKey(n + 1)], start.at);
    }
  }

  lemma {:induction false} EndsApproved(script: seq<Question>, start: PassRecord, n: nat,
            holds: map<QuestionKey, HoldId>, used: map<HoldId, real>, runs: Runs, turn: Turn, carried: nat,
            more: map<QuestionKey, HoldId>, later: map<HoldId, real>, after: Runs)
    requires n < |script| == |start.ids| == |start.closings| && LedgerSoFar(script, start, n, holds, runs)
    requires TurnDone(script, start, n, holds, used, runs, turn, carried, more, later, after)
    ensures AllApproved(script, n, more, after)
  {
    hide Fresh, StillUsed;
    assert forall key :: key in holds ==> key in more && more[key] == holds[key];
  }

  lemma {:induction false} EndsCarried(script: seq<Question>, start: PassRecord, n: nat,
            holds: map<QuestionKey, HoldId>,
            used: map<HoldId, real>, runs: Runs, turn: Turn, carried: nat, more: map<QuestionKey, HoldId>,
            later: map<HoldId, real>, after: Runs)
    requires n < |script| == |start.ids| == |start.closings| && SoFar(script, start, n, holds, used)
    requires TurnDone(script, start, n, holds, used, runs, turn, carried, more, later, after)
    ensures carried <= |script| && more == Carried(script, carried, start.before, start.ids)
    ensures carried == n ==> QuestionKey(n + 1) !in start.before
    ensures OnlyUsed(script, n, more, start.used, used, start.at)
  {
    CarriedExact(script, n, start.before, start.ids, QuestionKey(n + 1));
    hide Fresh, OnRecordAs, Passed;
    forall h | Fresh(start.used, h, start.at) && NotAmong(script, n, more, h)
      ensures Fresh(used, h, start.at)
    {
      assert NotAmong(script, n, holds, h);
    }
  }

  lemma {:induction false} PassEnds(script: seq<Question>, start: PassRecord, n: nat, holds: map<QuestionKey, HoldId>,
            used: map<HoldId, real>, runs: Runs, turn: Turn, carried: nat, more: map<QuestionKey, HoldId>,
            later: map<HoldId, real>, after: Runs)
    requires n < |script| == |start.ids| == |start.closings| && SoFar(script, start, n, holds, used)
    requires LedgerSoFar(script, start, n, holds, runs)
    requires TurnDone(script, start, n, holds, used, runs, turn, carried, more, later, after)
    requires !GoesOn(turn) || n + 1 == |script|
    ensures IsPass(script, Ended(start, n, used, turn, carried, more, after))
  {
    EndsPassed(script, start, n, holds, used, runs, turn, carried, more, later, after);
    EndsApproved(script, start, n, holds, used, runs, turn, carried, more, later, after);
    EndsCarried(script, start, n, holds, used, runs, turn, carried, more, later, after);
    hide Fresh, OnRecordAs, Carried, OnlyUsed, AllApproved, Passed, LedgerSoFar;
  }

  /** One pass of the call: as far as the answers reach. It stops at the first question it
      cannot answer, at a used answer, and at a gate that does not approve; if it goes on after
      the last question, every gate of the script is approved on the ledger. */
  method Pass(ctx: MrtrContext, signer: StateSigner, ledger: HoldLedger, script: seq<Question>, ids: seq<HoldId>,
              window: real, now: real, session: Approver, opens: seq<bool>, deeds: seq<seq<Deed>>,
              closings: seq<Closing>)
    returns (turn: Turn, ghost pass: PassRecord)
    requires |ids| == |opens| == |deeds| == |closings| == |script| > 0 && ctx.counter == 0 && ctx.pending == {}
    requires forall i :: 0 <= i < |ids| ==> ids[i] !in ledger.store.runs
    requires forall i, j :: 0 <= i < j < |ids| ==> ids[i] != ids[j]
    requires forall i, d :: 0 <= i < |deeds| && d in deeds[i] && (d.op.Open? || d.op.ByPolicy?) ==> d.op.id !in ids
    modifies ctx, signer, ledger.store
    ensures IsPass(script, pass) && ctx.counter == pass.reached && turn == pass.turn
    ensures pass.before == old(ctx.holds) && pass.ids == ids && pass.responses == ctx.responses
    ensures pass.used == old(signer.used) && pass.at == now && pass.closings == closings
    ensures pass.after == ctx.holds && pass.ledger == ledger.store.runs
    ensures ctx.pending == if turn == InputRequired then {QuestionKey(pass.reached)} else {}
    ensures forall key :: key in ctx.holds && key !in old(ctx.holds) ==> ctx.holds[key] in ledger.store.runs
    ensures GoesOn(turn) ==> AllApproved(script, |script|, ctx.holds, ledger.store.runs)
    ensures 0 < ctx.counter <= |script| && forall m :: 1 <= m < ctx.counter ==> QuestionKey(m) in ctx.responses
    ensures turn == InputRequired ==> QuestionKey(ctx.counter) !in ctx.responses
    ensures turn.Prompted? || (turn.Decided? && turn.result.Resolution? && turn.result.outcome == APPROVED) ==>
              forall m :: 1 <= m <= |script| && script[m - 1] == Gate ==>
                && QuestionKey(m) in ctx.holds && ctx.holds[QuestionKey(m)] in ledger.store.runs
                && ledger.store.runs[ctx.holds[QuestionKey(m)]].status in {Status.Running, Status.Completed}
  {
    hide Fresh;
    assert forall i :: 0 <= i < |deeds| ==> Elsewhere(deeds[i], ids);
    ghost var start :=
      PassRecord(ctx.holds, ids, ctx.responses, signer.used, now, closings, 0, 0, InputRequired, ctx.holds, signer.used,
                 ledger.store.runs);
    var reached := 0;
    while true
      invariant 0 <= reached < |script| && ctx.counter == reached && ctx.pending == {}
      invariant SoFar(script, start, reached, ctx.holds, signer.used)
      invariant LedgerSoFar(script, start, reached, ctx.holds, ledger.store.runs)
      decreases |script| - reached
    {
      ghost var holds, used, runs, carried := ctx.holds, signer.used, ledger.store.runs, 0;
      turn, carried := NextTurn(ctx, signer, ledger, script, reached, ids[reached], window, now, session,
                                opens[reached], deeds[reached], closings[reached], start);
      hide *;
      LedgerAdvances(script, start, reached, holds, used, runs, turn, carried, ctx.holds, signer.used, ledger.store.runs);
      if !GoesOn(turn) || reached + 1 == |script| {
        PassEnds(script, start, reached, holds, used, runs, turn, carried, ctx.holds, signer.used, ledger.store.runs);
        pass := Ended(start, reached, used, turn, carried, ctx.holds, ledger.store.runs);
        EndedIs(start, reached, used, turn, carried, ctx.holds, ledger.store.runs);
        ApprovedAtEnd(script, start, reached + 1, ctx.holds, ledger.store.runs);
        PassMeans(script, pass);
        return;
      }
      PassAdvances(script, start, reached, holds, used, runs, turn, carried, ctx.holds, signer.used, ledger.store.runs);
      assert turn != InputRequired by {
        StillAsking();
      }
      reached := reached + 1;
    }
  }

  /** A pass only goes on over questions that the retry answered. */
  lemma {:induction false} PassMeans(script: seq<Question>, pass: PassRecord)
    requires IsPass(script, pass)
    ensures 0 < pass.reached <= |script| && forall m :: 1 <= m < pass.reached ==> QuestionKey(m) in pass.responses
    ensures pass.turn == InputRequired ==> QuestionKey(pass.reached) !in pass.responses
  {
    forall m | 1 <= m < pass.reached
      ensures QuestionKey(m) in pass.responses
    {
      assert Passed(script, pass, m);
    }
  }

  lemma {:induction false} EndedIs(start: PassRecord, n: nat, used: map<HoldId, real>, turn: Turn, carried: nat,
            more: map<QuestionKey, HoldId>, after: Runs)
    ensures var pass := Ended(start, n, used, turn, carried, more, after);
            && pass.before == start.before && pass.ids == start.ids && pass.responses == start.responses
            && pass.used == start.used && pass.at == start.at && pass.closings == start.closings
            && pass.reached == n + 1 && pass.turn == turn && pass.after == more && pass.ledger == after
  {
  }

  lemma {:induction false} StillAsking()
    ensures !GoesOn(InputRequired)
  {
  }

  lemma {:induction false} ApprovedAtEnd(script: seq<Question>, start: PassRecord, n: nat,
            holds: map<QuestionKey, HoldId>, runs: Runs)
    requires n <= |script|
    ensures LedgerSoFar(script, start, n, holds, runs) ==> AllApproved(script, n, holds, runs)
  {
  }

  lemma {:induction false} CarriedExact(script: seq<Question>, n: nat, holds: map<QuestionKey, HoldId>,
            ids: seq<HoldId>, key: QuestionKey)
    requires n <= |script| == |ids|
    ensures var after := Carried(script, n, holds, ids);
            && (key in after <==> key in holds || (1 <= key.n <= n && script[key.n - 1] == Gate))
            && (key in holds ==> key in after && after[key] == holds[key])
            && (key in after && key !in holds ==> after[key] == ids[key.n - 1])
  {
    if n == 0 {
    } else {
      CarriedExact(script, n - 1, holds, ids, key);
    }
  }

  // ----- The passes of one call -------------------------------------------------------

  /** Who calls what: what a state is bound to. */
  datatype Call = Call(secret: Secret, principal: string, rpc: string, digest: string)

  /** The retry `pass` presents the state that the pass before it was answered with. */
  ghost predicate Follows(call: Call, earlier: PassRecord, signed: real, pass: PassRecord) {
    && earlier.turn == InputRequired
    && Verify(call.secret, Sign(call.secret, call.principal, call.rpc, call.digest, earlier.after, signed),
              call.principal, call.rpc, call.digest, pass.at) == Holds(pass.before)
  }

  /** A call and its retries: each presents the state the one before it was answered with. */
  ghost predicate IsChain(call: Call, script: seq<Question>, passes: seq<PassRecord>, signed: seq<real>) {
    && |signed| == |passes|
    && (forall i :: 0 <= i < |passes| ==> IsPass(script, passes[i]))
    && (|passes| > 0 ==> passes[0].before == map[])
    && (forall i, j :: 0 <= i && j == i + 1 < |passes| ==> Follows(call, passes[i], signed[i], passes[j]))
  }

  /** What a chain may consist of: every chain goes on with any pass that starts from the entries
      the last one left with its question, while the state signed then has not expired. */
  lemma {:induction false} ChainGoesOn(call: Call, script: seq<Question>, passes: seq<PassRecord>, signed: seq<real>,
            pass: PassRecord, at: real)
    requires IsChain(call, script, passes, signed) && IsPass(script, pass)
    requires if passes == [] then pass.before == map[]
             else var last := |passes| - 1;
                  && passes[last].turn == InputRequired && pass.before == passes[last].after
                  && pass.at <= signed[last] + 900.0
    ensures IsChain(call, script, [], []) && IsChain(call, script, passes + [pass], signed + [at])
  {
    hide IsPass;
    var all, all' := passes + [pass], signed + [at];
    forall i, j | 0 <= i && j == i + 1 < |all|
      ensures Follows(call, all[i], all'[i], all[j])
    {
      if j < |passes| {
        assert Follows(call, passes[i], signed[i], passes[j]);
      }
    }
  }

  /** The pass opened the ledger entry for question `q`. */
  predicate OpensEntry(pass: PassRecord, q: nat) {
    QuestionKey(q) in pass.after && QuestionKey(q) !in pass.before
  }

  /** Some pass among the first `n` got as far as question `q`. */
  ghost predicate ReachedBy(passes: seq<PassRecord>, n: nat, q: nat)
    requires n <= |passes|
  {
    exists i :: 0 <= i < n && passes[i].carried >= q
  }

  lemma {:induction false} StateCarries(call: Call, script: seq<Question>, passes: seq<PassRecord>,
            signed: seq<real>, n: nat)
    requires IsChain(call, script, passes, signed) && n + 1 < |passes|
    ensures passes[n + 1].before == passes[n].after
  {
    hide IsPass;
    assert Follows(call, passes[n], signed[n], passes[n + 1]);
  }

  lemma {:induction false} ChainAt(call: Call, script: seq<Question>, passes: seq<PassRecord>, signed: seq<real>,
            n: nat)
    requires IsChain(call, script, passes, signed) && n < |passes|
    ensures IsPass(script, passes[n]) && (n == 0 ==> passes[n].before == map[])
  {
    hide IsPass, Follows;
  }

  lemma {:induction false} PassCarries(script: seq<Question>, pass: PassRecord, q: nat)
    requires IsPass(script, pass) && 1 <= q <= |script| && script[q - 1] == Gate
    ensures QuestionKey(q) in pass.after <==> QuestionKey(q) in pass.before || q <= pass.carried
    ensures QuestionKey(q) in pass.before ==>
              QuestionKey(q) in pass.after && pass.after[QuestionKey(q)] == pass.before[QuestionKey(q)]
    ensures OpensEntry(pass, q) ==> pass.after[QuestionKey(q)] == pass.ids[q - 1]
  {
    CarriedExact(script, pass.carried, pass.before, pass.ids, QuestionKey(q));
  }

  lemma {:induction false} CarriedIffReached(call: Call, script: seq<Question>, passes: seq<PassRecord>,
            signed: seq<real>,
            n: nat, q: nat)
    requires IsChain(call, script, passes, signed) && n < |passes| && 1 <= q <= |script| && script[q - 1] == Gate
    ensures QuestionKey(q) in passes[n].before <==> ReachedBy(passes, n, q)
  {
    hide IsChain, IsPass;
    if n == 0 {
      ChainAt(call, script, passes, signed, 0);
    } else {
      CarriedIffReached(call, script, passes, signed, n - 1, q);
      StateCarries(call, script, passes, signed, n - 1);
      ChainAt(call, script, passes, signed, n - 1);
      PassCarries(script, passes[n - 1], q);
      assert ReachedBy(passes, n, q) <==> ReachedBy(passes, n - 1, q) || passes[n - 1].carried >= q;
    }
  }

  lemma {:induction false} StaysCarried(call: Call, script: seq<Question>, passes: seq<PassRecord>, signed: seq<real>,
            i: nat, j: nat, q: nat)
    requires IsChain(call, script, passes, signed) && i < j < |passes|
    requires 1 <= q <= |script| && script[q - 1] == Gate && QuestionKey(q) in passes[i].after
    ensures QuestionKey(q) in passes[j].before && passes[j].before[QuestionKey(q)] == passes[i].after[QuestionKey(q)]
    decreases j
  {
    hide IsChain, IsPass;
    StateCarries(call, script, passes, signed, j - 1);
    if i == j - 1 {
    } else {
      StaysCarried(call, script, passes, signed, i, j - 1, q);
      ChainAt(call, script, passes, signed, j - 1);
      PassCarries(script, passes[j - 1], q);
    }
  }

  /** One entry per question across a call and its retries, whatever answers they bring: a gate
      question opens its entry in the first pass that gets to it and in no other, and every
      later retry, carrying the state it was given, asks about and closes that entry. */
  lemma {:induction false} OneEntryPerQuestion(call: Call, script: seq<Question>, passes: seq<PassRecord>,
            signed: seq<real>, i: nat, j: nat, q: nat)
    requires IsChain(call, script, passes, signed) && i < j < |passes|
    requires 1 <= q <= |script| && script[q - 1] == Gate
    ensures OpensEntry(passes[i], q) <==> passes[i].carried >= q && !ReachedBy(passes, i, q)
    ensures OpensEntry(passes[i], q) ==>
              && !OpensEntry(passes[j], q) && QuestionKey(q) in passes[j].after
              && passes[j].after[QuestionKey(q)] == passes[i].ids[q - 1]
  {
    hide IsChain, IsPass;
    CarriedIffReached(call, script, passes, signed, i, q);
    ChainAt(call, script, passes, signed, i);
    ChainAt(call, script, passes, signed, j);
    PassCarries(script, passes[i], q);
    if OpensEntry(passes[i], q) {
      StaysCarried(call, script, passes, signed, i, j, q);
      PassCarries(script, passes[j], q);
    }
  }

  /** Every id that a pass may give to a new entry is fresh. */
  ghost predicate FreshIds(passes: seq<PassRecord>) {
    && (forall i, m, n :: 0 <= i < |passes| && 0 <= m < n < |passes[i].ids| ==> passes[i].ids[m] != passes[i].ids[n])
    && (forall i, m, key :: 0 <= i < |passes| && 0 <= m < |passes[i].ids| && key in passes[i].before ==>
          passes[i].ids[m] != passes[i].before[key])
  }

  /** With fresh ids each gate question has a hold of its own. */
  lemma {:induction false} HoldsDiffer(call: Call, script: seq<Question>, passes: seq<PassRecord>, signed: seq<real>,
            n: nat, q: nat, m: nat)
    requires IsChain(call, script, passes, signed) && FreshIds(passes) && n < |passes|
    requires 1 <= q <= |script| && 1 <= m <= |script| && q != m && script[q - 1] == Gate == script[m - 1]
    requires QuestionKey(q) in passes[n].after && QuestionKey(m) in passes[n].after
    ensures passes[n].after[QuestionKey(q)] != passes[n].after[QuestionKey(m)]
  {
    var pass := passes[n];
    ChainAt(call, script, passes, signed, n);
    assert |pass.ids| == |script|;
    hide IsPass;
    PassCarries(script, pass, q);
    PassCarries(script, pass, m);
    if QuestionKey(q) in pass.before && QuestionKey(m) in pass.before {
      assert n > 0;
      StateCarries(call, script, passes, signed, n - 1);
      hide IsChain;
      HoldsDiffer(call, script, passes, signed, n - 1, q, m);
    } else {
      hide IsChain;
      assert OpensEntry(pass, q) <==> QuestionKey(q) !in pass.before;
      assert OpensEntry(pass, m) <==> QuestionKey(m) !in pass.before;
    }
  }

  lemma {:induction false} ChainOwnHold(call: Call, script: seq<Question>, passes: seq<PassRecord>, signed: seq<real>,
            n: nat, q: nat)
    requires IsChain(call, script, passes, signed) && FreshIds(passes) && n < |passes|
    requires 1 <= q <= |script| && script[q - 1] == Gate && QuestionKey(q) in passes[n].after
    ensures OwnHold(script, passes[n].after, q)
  {
    hide IsChain, FreshIds;
    forall m | 1 <= m <= q - 1 && script[m - 1] == Gate && QuestionKey(m) in passes[n].after
      ensures passes[n].after[QuestionKey(m)] != passes[n].after[QuestionKey(q)]
    {
      HoldsDiffer(call, script, passes, signed, n, q, m);
    }
  }

  // ----- A question after a gate ------------------------------------------------------

  /** A question asked after an approval gate: the state returned with it names the hold the gate
      has just used, at `use`, and the signer remembers that unless it is too long ago. A retry
      that presents this state gets beyond the gate only if it brings the gate's answer again, and
      only after the memory has forgotten the use and before the state expires. Without that
      answer the gate asks again; with it, and any sooner, the answer counts as already used. */
  lemma {:induction false} SecondQuestion(call: Call, script: seq<Question>, earlier: PassRecord, signed: real,
            pass: PassRecord, q: nat, use: real)
    requires IsPass(script, earlier) && IsPass(script, pass) && Follows(call, earlier, signed, pass)
    requires 1 <= q < earlier.reached && script[q - 1] == Gate
    requires QuestionKey(q) in earlier.after && use <= signed
    requires var hold := earlier.after[QuestionKey(q)];
             (hold in pass.used && pass.used[hold] >= use) || use + 900.0 < pass.at
    ensures pass.reached > q || GoesOn(pass.turn) ==> QuestionKey(q) in pass.responses && use + TTL < pass.at <= signed + TTL
    ensures QuestionKey(q) !in pass.responses ==> pass.reached <= q && (pass.reached == q ==> pass.turn == InputRequired)
    ensures QuestionKey(q) in pass.responses && pass.at <= use + TTL ==>
              pass.reached <= q && (pass.reached == q ==> pass.turn == AlreadyUsed)
  {
    PassCarries(script, earlier, q);
    PassCarries(script, pass, q);
    assert Passed(script, earlier, q);
    var hold := pass.after[QuestionKey(q)];
    assert pass.before == earlier.after && pass.at <= signed + TTL;
    assert pass.at <= use + TTL ==> !Fresh(pass.used, hold, pass.at);
    hide Fresh, Carried;
    if pass.reached > q {
      assert Passed(script, pass, q);
    }
  }

  /** No gate before question `q` has the hold of `q`. */
  ghost predicate OwnHold(script: seq<Question>, holds: map<QuestionKey, HoldId>, q: nat)
    requires 1 <= q <= |script|
  {
    QuestionKey(q) in holds && NotAmong(script, q - 1, holds, holds[QuestionKey(q)])
  }

  /** The last use of the hold that the signer knows of, or has forgotten since, was at `use`: when
      the retry gets as far as the gate, it gets beyond it exactly if it brings the answer,
      the use is forgotten, the close returns and the approval is on record; by its state it is
      then not too late either. */
  lemma {:induction false} SecondQuestionIff(call: Call, script: seq<Question>, earlier: PassRecord, signed: real,
            pass: PassRecord, q: nat, use: real)
    requires IsPass(script, earlier) && IsPass(script, pass) && Follows(call, earlier, signed, pass)
    requires 1 <= q < earlier.reached && script[q - 1] == Gate && OwnHold(script, earlier.after, q)
    requires var hold := earlier.after[QuestionKey(q)];
             if hold in pass.used then pass.used[hold] == use else use + 900.0 < pass.at
    requires pass.reached >= q
    ensures pass.at <= signed + TTL
    ensures pass.reached > q <==>
            && QuestionKey(q) in pass.responses && use + TTL < pass.at && pass.closings[q - 1].Returned?
            && OnRecordAs(pass.ledger, earlier.after[QuestionKey(q)], APPROVED)
  {
    var key := QuestionKey(q);
    PassCarries(script, earlier, q);
    PassCarries(script, pass, q);
    SameHolds(call, script, earlier, signed, pass);
    var hold := pass.after[key];
    assert hold == earlier.after[key] && (Fresh(pass.used, hold, pass.at) <==> use + TTL < pass.at);
    assert pass.reached > q ==> Passed(script, pass, q) && OnRecordAs(pass.ledger, hold, APPROVED);
    assert pass.carried == pass.reached || pass.reached > q;
    hide Fresh, Carried, OnRecordAs;
    if pass.reached == q {
      assert Fresh(pass.memory, hold, pass.at) <==> Fresh(pass.used, hold, pass.at) by {
        CarriedKeeps(script, pass.carried, pass.before, pass.ids);
        StillOwn(script, earlier.after, pass.after, q);
      }
    }
  }

  lemma {:induction false} CarriedKeeps(script: seq<Question>, n: nat, holds: map<QuestionKey, HoldId>,
            ids: seq<HoldId>)
    requires n <= |script| == |ids|
    ensures forall key :: key in holds ==>
              key in Carried(script, n, holds, ids) && Carried(script, n, holds, ids)[key] == holds[key]
  {
    forall key | key in holds
      ensures key in Carried(script, n, holds, ids) && Carried(script, n, holds, ids)[key] == holds[key]
    {
      CarriedExact(script, n, holds, ids, key);
    }
  }

  lemma {:induction false} SameHolds(call: Call, script: seq<Question>, earlier: PassRecord, signed: real,
            pass: PassRecord)
    requires Follows(call, earlier, signed, pass)
    ensures pass.before == earlier.after && pass.at <= signed + TTL
  {
  }

  /** The hold of `q` is still none of an earlier gate when the pass comes to `q`. */
  lemma {:induction false} StillOwn(script: seq<Question>, holds: map<QuestionKey, HoldId>,
            more: map<QuestionKey, HoldId>, q: nat)
    requires 1 <= q <= |script| && OwnHold(script, holds, q)
    requires forall m :: 1 <= m <= q && script[m - 1] == Gate ==> QuestionKey(m) in holds
    requires forall key :: key in holds ==> key in more && more[key] == holds[key]
    ensures NotAmong(script, q - 1, more, more[QuestionKey(q)])
  {
  }

  /** So a call that asks a further question at the very time its gate's answer was used can
      never be finished: no retry with that state gets beyond the gate, whenever it comes and
      whatever answers it brings. */
  lemma {:induction false} NeverFinished(call: Call, script: seq<Question>, earlier: PassRecord, signed: real,
            pass: PassRecord, q: nat)
    requires IsPass(script, earlier) && IsPass(script, pass) && Follows(call, earlier, signed, pass)
    requires 1 <= q < earlier.reached && script[q - 1] == Gate
    requires QuestionKey(q) in earlier.after
    requires var hold := earlier.after[QuestionKey(q)];
             (hold in pass.used && pass.used[hold] >= signed) || signed + 900.0 < pass.at
    ensures !GoesOn(pass.turn) && pass.reached <= q
  {
    hide IsPass;
    SecondQuestion(call, script, earlier, signed, pass, q, signed);
  }
}
