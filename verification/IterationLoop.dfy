/** The propose-validate-refine loop and its gate (orchestrator/iteration_controller.py). */
module IterationLoop {
  import opened Options

  datatype Status = FAILED | APPROVED | CONVERGED | BLOCKED

  datatype Fault = NoFault | BranchCreationFailed | AgentFailed(iteration: nat) | CommitOrMergeFailed | NoWorkflow | Exhausted

  /** A parameter value; the loop itself writes numbers and error lists. */
  datatype Value = Given(text: string) | Number(n: nat) | Messages(errors: seq<string>)

  datatype Name = Name(text: string)

  type Parameters = map<Name, Value>

  const ITERATION := Name("_iteration")
  const PREVIOUS_ERRORS := Name("_previous_errors")
  const AUTO_APPROVER_ID := "auto:iteration_controller"

  /** How the agent and the constraint evaluation react to one iteration. */
  datatype Reaction =
    | AgentRaises
    | Evaluated(answer: string, passed: bool, violations: seq<string>)
    | EvaluationRaises(answer: string, message: string)

  /** How the twin reacts to each of its calls. */
  datatype Environment = Environment(branchOk: bool, reactions: nat -> Reaction, commitOk: bool, mergeOk: bool)

  datatype Config = Config(maxIterations: int, autoApprove: bool, hasWorkflow: bool, branch: string, source: string)

  /** The calls the loop makes to the outside, with what became of them. */
  datatype Call =
    | CreateBranch(branch: string, source: string, ok: bool)
    | RunTask(iteration: nat, parameters: Parameters)
    | Evaluate(branch: string)
    | Commit(branch: string, ok: bool)
    | Merge(branch: string, target: string, ok: bool)

  datatype Record = Record(iteration: nat, validated: bool, passed: bool, errors: seq<string>)

  datatype Result = Result(status: Status, total: nat, records: seq<Record>, answer: Option<string>,
                           approver: Option<string>, fault: Fault)

  predicate Passed(r: Reaction) {
    r.Evaluated? && r.passed
  }

  function ErrorsOf(r: Reaction): seq<string> {
    match r
    case AgentRaises => []
    case Evaluated(_, _, violations) => violations
    case EvaluationRaises(_, message) => [message]
  }

  function RecordOf(k: nat, r: Reaction): Record {
    Record(k, !r.AgentRaises?, Passed(r), ErrorsOf(r))
  }

  // ----- What a run of the loop amounts to --------------------------------------------

  /** The iteration that ends the loop; past `max` none does. */
  predicate Stops(env: Environment, k: nat) {
    env.reactions(k).AgentRaises? || Passed(env.reactions(k))
  }

  /** Iterations made when those before `k` did not end the loop. */
  function Rounds(env: Environment, max: int, k: nat): nat
    requires k <= max
    decreases max - k
  {
    if k == max || (k > 0 && Stops(env, k)) then k else Rounds(env, max, k + 1)
  }

  function Total(c: Config, env: Environment): nat {
    if c.maxIterations <= 0 then 0 else Rounds(env, c.maxIterations, 0)
  }

  /** What the agent is given in iteration `k`. */
  function ParametersAt(given: Parameters, env: Environment, k: nat): Parameters
    requires k > 0
  {
    if k == 1 then given
    else Refined(ParametersAt(given, env, k - 1), k - 1, ErrorsOf(env.reactions(k - 1)))
  }

  /** `_refine_parameters`. */
  function Refined(parameters: Parameters, iteration: nat, errors: seq<string>): Parameters {
    parameters[ITERATION := Number(iteration + 1)][PREVIOUS_ERRORS := Messages(errors)]
  }

  function CallsOf(c: Config, env: Environment, given: Parameters, n: nat): seq<Call> {
    if n == 0 then [CreateBranch(c.branch, c.source, true)]
    else
      CallsOf(c, env, given, n - 1) + [RunTask(n, ParametersAt(given, env, n))]
      + (if env.reactions(n).AgentRaises? then [] else [Evaluate(c.branch)])
  }

  function Records(env: Environment, n: nat): seq<Record> {
    if n == 0 then [] else Records(env, n - 1) + [RecordOf(n, env.reactions(n))]
  }

  function Tail(c: Config, env: Environment): seq<Call> {
    var n := Total(c, env);
    if n == 0 || !Passed(env.reactions(n)) || !c.autoApprove then []
    else [Commit(c.branch, env.commitOk)] + (if env.commitOk then [Merge(c.branch, c.source, env.mergeOk)] else [])
  }

  function AllCalls(c: Config, env: Environment, given: Parameters): seq<Call> {
    if !env.branchOk then [CreateBranch(c.branch, c.source, false)] else CallsOf(c, env, given, Total(c, env)) + Tail(c, env)
  }

  function Outcome(c: Config, env: Environment): Result {
    if !env.branchOk then Result(FAILED, 0, [], None, None, BranchCreationFailed)
    else
      var n := Total(c, env);
      var records := Records(env, n);
      if n == 0 || !Stops(env, n) then Result(FAILED, n, records, None, None, Exhausted)
      else if env.reactions(n).AgentRaises? then Result(FAILED, n, records, None, None, AgentFailed(n))
      else if c.autoApprove then
        if env.commitOk && env.mergeOk then
          Result(APPROVED, n, records, Some(env.reactions(n).answer), Some(AUTO_APPROVER_ID), NoFault)
        else Result(FAILED, n, records, None, None, CommitOrMergeFailed)
      else if !c.hasWorkflow then Result(BLOCKED, n, records, Some(env.reactions(n).answer), None, NoWorkflow)
      else Result(CONVERGED, n, records, Some(env.reactions(n).answer), None, NoFault)
  }

  lemma {:induction false} RoundsOn(env: Environment, max: int, k: nat)
    requires k < max && (k == 0 || !Stops(env, k))
    ensures Rounds(env, max, k) == Rounds(env, max, k + 1)
  {
  }

  class IterationController {
    const config: Config

    constructor (config: Config)
      ensures this.config == config
    {
      this.config := config;
    }

    /** `_gate_check`: approves only by an explicit `auto_approve`. */
    method GateCheck() returns (s: Status)
      ensures s == APPROVED <==> config.autoApprove
      ensures s == BLOCKED <==> !config.autoApprove && !config.hasWorkflow
      ensures s == CONVERGED <==> !config.autoApprove && config.hasWorkflow
    {
      if config.autoApprove {
        return APPROVED;
      }
      return if config.hasWorkflow then CONVERGED else BLOCKED;
    }

    /** The commit, and the merge if it returned. */
    method CommitAndMerge(env: Environment) returns (calls: seq<Call>, ok: bool)
      ensures calls == [Commit(config.branch, env.commitOk)] +
              (if env.commitOk then [Merge(config.branch, config.source, env.mergeOk)] else [])
      ensures ok == (env.commitOk && env.mergeOk)
    {
      calls := [Commit(config.branch, env.commitOk)];
      if env.commitOk {
        calls := calls + [Merge(config.branch, config.source, env.mergeOk)];
      }
      ok := env.commitOk && env.mergeOk;
    }

    /** `run_iteration_loop`: the result and the calls made are exactly those specified. */
    method RunIterationLoop(env: Environment, parameters: Parameters) returns (result: Result, calls: seq<Call>)
      ensures result == Outcome(config, env) && calls == AllCalls(config, env, parameters)
    {
      calls := [CreateBranch(config.branch, config.source, env.branchOk)];
      if !env.branchOk {
        return Result(FAILED, 0, [], None, None, BranchCreationFailed), calls;
      }
      hide Rounds, AllCalls, Outcome;
      var current, records := parameters, [];
      var iteration: nat := 0;
      while iteration < config.maxIterations
        invariant iteration == 0 || iteration <= config.maxIterations
        invariant config.maxIterations > 0 ==> Total(config, env) == Rounds(env, config.maxIterations, iteration)
        invariant iteration > 0 ==> !Stops(env, iteration)
        invariant calls == CallsOf(config, env, parameters, iteration) && records == Records(env, iteration)
        invariant current == ParametersAt(parameters, env, iteration + 1)
        decreases config.maxIterations - iteration
      {
        RoundsOn(env, config.maxIterations, iteration);
        iteration := iteration + 1;
        calls := calls + [RunTask(iteration, current)];
        var reaction := env.reactions(iteration);
        if reaction.AgentRaises? {
          records := records + [Record(iteration, false, false, [])];
          Ends(config, env, parameters, iteration);
          Finished(config, env, parameters, iteration);
          return Result(FAILED, iteration, records, None, None, AgentFailed(iteration)), calls;
        }
        calls := calls + [Evaluate(config.branch)];
        var passed := reaction.Evaluated? && reaction.passed;
        var errors := if reaction.Evaluated? then reaction.violations else [reaction.message];
        records := records + [Record(iteration, true, passed, errors)];
        if passed {
          Ends(config, env, parameters, iteration);
          Finished(config, env, parameters, iteration);
          var gate := GateCheck();
          if gate == APPROVED {
            var made, ok := CommitAndMerge(env);
            calls := calls + made;
            if !ok {
              return Result(FAILED, iteration, records, None, None, CommitOrMergeFailed), calls;
            }
            return Result(APPROVED, iteration, records, Some(reaction.answer), Some(AUTO_APPROVER_ID), NoFault), calls;
          } else if gate == CONVERGED {
            return Result(CONVERGED, iteration, records, Some(reaction.answer), None, NoFault), calls;
          } else {
            return Result(BLOCKED, iteration, records, Some(reaction.answer), None, NoWorkflow), calls;
          }
        }
        current := Refined(current, iteration, errors);
      }
      ExhaustedAt(config, env, parameters, iteration);
      return Result(FAILED, iteration, records, None, None, Exhausted), calls;
    }
  }

  lemma {:induction false} Ends(c: Config, env: Environment, given: Parameters, n: nat)
    requires 0 < n <= c.maxIterations && Total(c, env) == Rounds(env, c.maxIterations, n) && Stops(env, n)
    ensures Total(c, env) == n
  {
  }

  lemma {:induction false} Finished(c: Config, env: Environment, given: Parameters, n: nat)
    requires env.branchOk && Total(c, env) == n > 0 && Stops(env, n)
    ensures AllCalls(c, env, given) == CallsOf(c, env, given, n) +
            (if env.reactions(n).AgentRaises? || !c.autoApprove then []
             else [Commit(c.branch, env.commitOk)] + (if env.commitOk then [Merge(c.branch, c.source, env.mergeOk)] else []))
    ensures Outcome(c, env) ==
            var records, reaction := Records(env, n), env.reactions(n);
            if reaction.AgentRaises? then Result(FAILED, n, records, None, None, AgentFailed(n))
            else if c.autoApprove then
              if env.commitOk && env.mergeOk then Result(APPROVED, n, records, Some(reaction.answer), Some(AUTO_APPROVER_ID), NoFault)
              else Result(FAILED, n, records, None, None, CommitOrMergeFailed)
            else if !c.hasWorkflow then Result(BLOCKED, n, records, Some(reaction.answer), None, NoWorkflow)
            else Result(CONVERGED, n, records, Some(reaction.answer), None, NoFault)
  {
    hide Total, CallsOf, Records;
  }

  lemma {:induction false} ExhaustedAt(c: Config, env: Environment, given: Parameters, n: nat)
    requires env.branchOk && n >= c.maxIterations && (n == 0 || n == c.maxIterations)
    requires c.maxIterations > 0 ==> Total(c, env) == Rounds(env, c.maxIterations, n)
    requires n > 0 ==> !Stops(env, n)
    ensures AllCalls(c, env, given) == CallsOf(c, env, given, n)
    ensures Outcome(c, env) == Result(FAILED, n, Records(env, n), None, None, Exhausted)
  {
    hide CallsOf, Records;
    assert Total(c, env) == n;
    assert CallsOf(c, env, given, n) + [] == CallsOf(c, env, given, n);
  }

  // ----- The guarantees ---------------------------------------------------------------

  lemma {:induction false} RoundsFacts(env: Environment, max: int, k: nat)
    requires k <= max
    ensures var n := Rounds(env, max, k);
            && k <= n <= max && (n == max || (n > 0 && Stops(env, n)))
            && (forall m :: k < m < n ==> !Stops(env, m))
            && (k > 0 && n > k ==> !Stops(env, k))
    decreases max - k
  {
    if k == max || (k > 0 && Stops(env, k)) {
    } else {
      RoundsFacts(env, max, k + 1);
    }
  }

  lemma {:induction false} RecordsAre(env: Environment, n: nat)
    ensures |Records(env, n)| == n
    ensures forall i :: 0 <= i < n ==> Records(env, n)[i] == RecordOf(i + 1, env.reactions(i + 1))
  {
    if n == 0 {
    } else {
      RecordsAre(env, n - 1);
    }
  }

  /** The loop ends with the first iteration whose agent raises or whose evaluation passes, or
      with the last one allowed. */
  lemma {:induction false} TotalMeans(c: Config, env: Environment)
    ensures var n := Total(c, env);
            && (c.maxIterations <= 0 ==> n == 0)
            && (c.maxIterations > 0 ==> 0 < n <= c.maxIterations)
            && (0 < n < c.maxIterations ==>
                  env.reactions(n).AgentRaises? || (env.reactions(n).Evaluated? && env.reactions(n).passed))
            && forall k :: 0 < k < n ==>
                 !env.reactions(k).AgentRaises? && !(env.reactions(k).Evaluated? && env.reactions(k).passed)
  {
    if c.maxIterations > 0 {
      RoundsFacts(env, c.maxIterations, 0);
      forall k | 0 < k < Total(c, env)
        ensures !env.reactions(k).AgentRaises? && !(env.reactions(k).Evaluated? && env.reactions(k).passed)
      {
        assert !Stops(env, k);
      }
    }
  }

  /** What the result says, read off the reaction to the last iteration and the twin's answers
      to the commit and the merge. */
  lemma {:induction false} OutcomeMeans(c: Config, env: Environment)
    ensures var r := Outcome(c, env);
            var passed := r.total > 0 && env.reactions(r.total).Evaluated? && env.reactions(r.total).passed;
            && (r.total > 0 ==> env.branchOk)
            && (r.status == APPROVED <==> passed && c.autoApprove && env.commitOk && env.mergeOk)
            && (r.status == CONVERGED <==> passed && !c.autoApprove && c.hasWorkflow)
            && (r.status == BLOCKED <==> passed && !c.autoApprove && !c.hasWorkflow)
            && (r.answer.Some? <==> r.status != FAILED)
            && (r.answer.Some? ==> r.answer.value == env.reactions(r.total).answer)
            && (r.fault == BranchCreationFailed <==> !env.branchOk)
            && (r.fault == AgentFailed(r.total) <==> r.total > 0 && env.reactions(r.total).AgentRaises?)
            && (r.fault == CommitOrMergeFailed <==> passed && r.status == FAILED)
            && (r.fault == NoWorkflow <==> r.status == BLOCKED)
            && (r.fault == NoFault <==> r.status == APPROVED || r.status == CONVERGED)
  {
    TotalMeans(c, env);
    hide Total, Records;
  }

  /** One record per iteration, never more than allowed; all but the last are failures. */
  lemma {:induction false} RecordsOfARun(c: Config, env: Environment)
    ensures var r := Outcome(c, env);
            && |r.records| == r.total && (r.total <= c.maxIterations || r.total == 0)
            && (forall i :: 0 <= i < |r.records| ==> r.records[i].iteration == i + 1)
            && (forall i :: 0 <= i < |r.records| - 1 ==> r.records[i].validated && !r.records[i].passed)
            && (forall i :: 0 <= i < |r.records| ==>
                  var reaction := env.reactions(i + 1);
                  && (r.records[i].validated <==> !reaction.AgentRaises?)
                  && (r.records[i].passed <==> reaction.Evaluated? && reaction.passed)
                  && (reaction.AgentRaises? ==> r.records[i].errors == [])
                  && (reaction.Evaluated? ==> r.records[i].errors == reaction.violations)
                  && (reaction.EvaluationRaises? ==> r.records[i].errors == [reaction.message]))
  {
    RecordsAre(env, Total(c, env));
    if c.maxIterations > 0 {
      RoundsFacts(env, c.maxIterations, 0);
      var r := Outcome(c, env);
      forall i | 0 <= i < |r.records| - 1
        ensures r.records[i].validated && !r.records[i].passed
      {
        assert !Stops(env, i + 1);
      }
    }
  }

  lemma {:induction false} CallsAre(c: Config, env: Environment, given: Parameters, n: nat)
    ensures |CallsOf(c, env, given, n)| > 0
    ensures forall i :: 0 <= i < |CallsOf(c, env, given, n)| ==>
              !CallsOf(c, env, given, n)[i].Merge? && !CallsOf(c, env, given, n)[i].Commit?
    ensures forall i :: 0 <= i < |CallsOf(c, env, given, n)| && CallsOf(c, env, given, n)[i].RunTask? ==>
              var call := CallsOf(c, env, given, n)[i];
              call.iteration > 0 && call.parameters == ParametersAt(given, env, call.iteration)
    ensures n > 0 && !env.reactions(n).AgentRaises? ==>
              CallsOf(c, env, given, n)[|CallsOf(c, env, given, n)| - 1] == Evaluate(c.branch)
  {
    if n == 0 {
    } else {
      CallsAre(c, env, given, n - 1);
    }
  }

  lemma {:induction false} CallsUpTo(c: Config, env: Environment, given: Parameters, n: nat, k: nat)
    requires 0 < k <= n && forall m :: 0 < m < n ==> !env.reactions(m).AgentRaises?
    ensures var calls := CallsOf(c, env, given, n);
            && |calls| == 1 + 2 * n - (if env.reactions(n).AgentRaises? then 1 else 0)
            && calls[0] == CreateBranch(c.branch, c.source, true)
            && calls[2 * k - 1].RunTask? && calls[2 * k - 1].iteration == k
            && (2 * k < |calls| ==> calls[2 * k] == Evaluate(c.branch))
  {
    hide ParametersAt;
    if n > 1 {
      CallsUpTo(c, env, given, n - 1, if k < n then k else 1);
    }
  }

  /** The calls of a run in their order: the branch, then per iteration the agent and, unless it
      raised, the evaluation; after a passing one with `auto_approve` the commit, and after a
      successful commit the merge. Nothing else is called. */
  lemma {:induction false} CallsOfARun(c: Config, env: Environment, given: Parameters, k: nat)
    requires env.branchOk && 0 < k <= Outcome(c, env).total
    ensures var n, calls := Outcome(c, env).total, AllCalls(c, env, given);
            var last := env.reactions(n);
            && calls[0] == CreateBranch(c.branch, c.source, true)
            && 2 * k <= |calls| && calls[2 * k - 1].RunTask? && calls[2 * k - 1].iteration == k
            && (k < n || !last.AgentRaises? ==> 2 * k < |calls| && calls[2 * k] == Evaluate(c.branch))
            && (last.AgentRaises? ==> |calls| == 2 * n)
            && (!last.AgentRaises? && !(last.Evaluated? && last.passed && c.autoApprove) ==> |calls| == 2 * n + 1)
            && (last.Evaluated? && last.passed && c.autoApprove ==>
                  && |calls| == (if env.commitOk then 2 * n + 3 else 2 * n + 2)
                  && calls[2 * n + 1] == Commit(c.branch, env.commitOk)
                  && (env.commitOk ==> calls[2 * n + 2] == Merge(c.branch, c.source, env.mergeOk)))
  {
    TotalMeans(c, env);
    hide Total, CallsOf;
    CallsUpTo(c, env, given, Total(c, env), k);
  }

  /** A merge is the last call of the run, comes directly after a successful commit of the same
      branch and that after an evaluation that passed, and needs `auto_approve`. */
  lemma {:induction false} MergeDiscipline(c: Config, env: Environment, given: Parameters, i: nat)
    requires i < |AllCalls(c, env, given)| && AllCalls(c, env, given)[i].Merge?
    ensures var calls := AllCalls(c, env, given);
            && i == |calls| - 1 && i >= 2 && c.autoApprove
            && calls[i].branch == c.branch && calls[i].target == c.source
            && calls[i - 1] == Commit(c.branch, true) && calls[i - 2] == Evaluate(c.branch)
            && Outcome(c, env).records != [] && Outcome(c, env).records[|Outcome(c, env).records| - 1].passed
  {
    CallsAre(c, env, given, Total(c, env));
    RecordsAre(env, Total(c, env));
  }

  /** The result is approved exactly if a merge was made and returned; then, and only then,
      the automatic approver is named. */
  lemma {:induction false} ApprovedIffMerged(c: Config, env: Environment, given: Parameters)
    ensures Outcome(c, env).status == APPROVED <==> Merge(c.branch, c.source, true) in AllCalls(c, env, given)
    ensures Outcome(c, env).status == APPROVED <==> Outcome(c, env).approver == Some(AUTO_APPROVER_ID)
    ensures Outcome(c, env).status == APPROVED ==> c.autoApprove
  {
    CallsAre(c, env, given, Total(c, env));
    if Outcome(c, env).status == APPROVED {
      assert AllCalls(c, env, given)[|AllCalls(c, env, given)| - 1] == Merge(c.branch, c.source, true);
    }
    if i :| 0 <= i < |AllCalls(c, env, given)| && AllCalls(c, env, given)[i] == Merge(c.branch, c.source, true) {
      MergeDiscipline(c, env, given, i);
    }
  }

  lemma {:induction false} ParametersAre(given: Parameters, env: Environment, k: nat)
    requires k > 1
    ensures ParametersAt(given, env, k) ==
            given[ITERATION := Number(k)][PREVIOUS_ERRORS := Messages(ErrorsOf(env.reactions(k - 1)))]
  {
    if k <= 2 {
    } else {
      ParametersAre(given, env, k - 1);
    }
  }

  /** From the second iteration on the agent sees the parameters the caller gave, its iteration
      number and the errors of the iteration before, and nothing of earlier ones. */
  lemma {:induction false} AgentSees(c: Config, env: Environment, given: Parameters, i: nat)
    requires i < |AllCalls(c, env, given)| && AllCalls(c, env, given)[i].RunTask?
    ensures var call := AllCalls(c, env, given)[i];
            && call.iteration > 0
            && call.parameters ==
               if call.iteration == 1 then given
               else given[ITERATION := Number(call.iteration)]
                         [PREVIOUS_ERRORS := Messages(ErrorsOf(env.reactions(call.iteration - 1)))]
    ensures var call := AllCalls(c, env, given)[i];
            call.iteration > 1 ==>
              var before := env.reactions(call.iteration - 1);
              && Name("_iteration") in call.parameters && Name("_previous_errors") in call.parameters
              && call.parameters[Name("_iteration")] == Number(call.iteration)
              && (before.Evaluated? ==> call.parameters[Name("_previous_errors")] == Messages(before.violations))
              && (before.EvaluationRaises? ==> call.parameters[Name("_previous_errors")] == Messages([before.message]))
  {
    CallsAre(c, env, given, Total(c, env));
    var call := AllCalls(c, env, given)[i];
    if call.iteration > 1 {
      ParametersAre(given, env, call.iteration);
    }
  }
}
