/** The plan executor: runs a plan's steps in order through the tool registry
    and stops at the first step whose tool result is not ok. */
module AgentExecutor {
  import opened Wrappers
  import opened Values
  import opened ToolRouter

  datatype PlanStep = PlanStep(stepId: int, toolName: string, args: Dict)

  datatype Plan = Plan(objective: string, steps: seq<PlanStep>)

  /** The schema's `step_id >= 1`. */
  predicate ValidPlan(p: Plan) {
    forall i :: 0 <= i < |p.steps| ==> p.steps[i].stepId >= 1
  }

  datatype StepExecution = StepExecution(stepId: int, toolName: string, ok: bool, data: Dict, error: Option<string>)

  datatype RunSummary = RunSummary(objective: string, ok: bool, steps: seq<StepExecution>)

  function Request(step: PlanStep): ToolRequest {
    ToolRequest(step.toolName, step.args)
  }

  /** The record kept for one executed step. */
  function Record(step: PlanStep, r: ToolResult): StepExecution {
    StepExecution(step.stepId, step.toolName, r.ok, r.data, r.error)
  }

  function RunStep(tools: map<string, ToolFn>, step: PlanStep): StepExecution {
    Record(step, RunWith(tools, Request(step)))
  }

  /** The records of a fail-fast run of `steps`. */
  function Execute(tools: map<string, ToolFn>, steps: seq<PlanStep>): seq<StepExecution>
    decreases |steps|
  {
    if steps == [] then []
    else
      var e := RunStep(tools, steps[0]);
      if !e.ok then [e] else [e] + Execute(tools, steps[1..])
  }

  predicate AllOk(es: seq<StepExecution>) {
    forall i :: 0 <= i < |es| ==> es[i].ok
  }

  /** The records are the results of running a prefix of the steps, one call per
      record: record `i` is step `i`'s result, with its id and tool name. */
  lemma {:induction false} ExecutePrefix(tools: map<string, ToolFn>, steps: seq<PlanStep>)
    ensures |Execute(tools, steps)| <= |steps|
    ensures forall i :: 0 <= i < |Execute(tools, steps)| ==>
              Execute(tools, steps)[i] == RunStep(tools, steps[i])
    ensures forall i :: 0 <= i < |Execute(tools, steps)| ==>
              Execute(tools, steps)[i].stepId == steps[i].stepId
              && Execute(tools, steps)[i].toolName == steps[i].toolName
    decreases |steps|
  {
    if steps != [] && RunStep(tools, steps[0]).ok {
      ExecutePrefix(tools, steps[1..]);
      var rest := Execute(tools, steps[1..]);
      assert Execute(tools, steps) == [RunStep(tools, steps[0])] + rest;
    }
  }

  /** Only the last record can be a failure, and stopping early means the last
      record failed; steps after a failure are never run. */
  lemma {:induction false} ExecuteFailFast(tools: map<string, ToolFn>, steps: seq<PlanStep>)
    ensures forall i :: 0 <= i < |Execute(tools, steps)| - 1 ==> Execute(tools, steps)[i].ok
    ensures |Execute(tools, steps)| < |steps| ==>
              |Execute(tools, steps)| > 0 && !Execute(tools, steps)[|Execute(tools, steps)| - 1].ok
    ensures steps != [] ==> Execute(tools, steps) != []
    decreases |steps|
  {
    if steps != [] && RunStep(tools, steps[0]).ok {
      ExecuteFailFast(tools, steps[1..]);
      var rest := Execute(tools, steps[1..]);
      assert Execute(tools, steps) == [RunStep(tools, steps[0])] + rest;
    }
  }

  /** Every record is ok exactly when every step ran and succeeded. */
  lemma {:induction false} ExecuteAllOk(tools: map<string, ToolFn>, steps: seq<PlanStep>)
    ensures AllOk(Execute(tools, steps)) <==>
              (|Execute(tools, steps)| == |steps| && forall i :: 0 <= i < |steps| ==> RunStep(tools, steps[i]).ok)
    decreases |steps|
  {
    ExecutePrefix(tools, steps);
    ExecuteFailFast(tools, steps);
    if steps != [] && RunStep(tools, steps[0]).ok {
      ExecuteAllOk(tools, steps[1..]);
      var rest := Execute(tools, steps[1..]);
      assert Execute(tools, steps) == [RunStep(tools, steps[0])] + rest;
      if AllOk(Execute(tools, steps)) {
        assert AllOk(rest) by {
          forall i | 0 <= i < |rest| ensures rest[i].ok {
            assert rest[i] == Execute(tools, steps)[i + 1];
          }
        }
      }
      if forall i :: 0 <= i < |steps| ==> RunStep(tools, steps[i]).ok {
        assert forall i :: 0 <= i < |steps[1..]| ==> RunStep(tools, steps[1..][i]).ok by {
          forall i | 0 <= i < |steps[1..]| ensures RunStep(tools, steps[1..][i]).ok {
            assert steps[1..][i] == steps[i + 1];
          }
        }
      }
    }
  }

  /** The run of the steps from `i` on begins with step `i`'s record, and
      goes on only when it is ok. */
  lemma ExecuteFrom(tools: map<string, ToolFn>, steps: seq<PlanStep>, i: nat)
    requires i < |steps|
    ensures var e := RunStep(tools, steps[i]);
      Execute(tools, steps[i..]) == if e.ok then [e] + Execute(tools, steps[i + 1..]) else [e]
  {
    assert steps[i..][0] == steps[i] && steps[i..][1..] == steps[i + 1..];
  }

  /** Appending the next record keeps the loop's invariant, or completes the
      run when the record failed. */
  lemma RecordStep(e: StepExecution, done: seq<StepExecution>, rest: seq<StepExecution>, whole: seq<StepExecution>)
    requires AllOk(done) && done + (if e.ok then [e] + rest else [e]) == whole
    ensures e.ok ==> AllOk(done + [e]) && (done + [e]) + rest == whole
    ensures !e.ok ==> done + [e] == whole && !AllOk(done + [e])
  {
    assert (done + [e])[|done|] == e;
    assert forall j :: 0 <= j < |done| ==> (done + [e])[j] == done[j];
  }

  /** `execute_plan`. */
  method ExecutePlan(registry: ToolRegistry, plan: Plan, runId: string) returns (summary: RunSummary)
    ensures summary.objective == plan.objective
    ensures summary.steps == Execute(registry.tools, plan.steps)
    ensures summary.ok <==> AllOk(summary.steps)
  {
    ghost var tools := registry.tools;
    var executed: seq<StepExecution> := [];
    var overallOk := true;
    var i := 0;
    assert plan.steps[0..] == plan.steps;
    while i < |plan.steps|
      invariant 0 <= i <= |plan.steps|
      invariant overallOk && AllOk(executed)
      invariant executed + Execute(tools, plan.steps[i..]) == Execute(tools, plan.steps)
    {
      var step := plan.steps[i];
      var result := registry.Run(Request(step));
      assert Record(step, result) == RunStep(tools, plan.steps[i]);
      ExecuteFrom(tools, plan.steps, i);
      RecordStep(RunStep(tools, step), executed, Execute(tools, plan.steps[i + 1..]), Execute(tools, plan.steps));
      executed := executed + [Record(step, result)];
      if !result.ok {
        overallOk := false;
        break;
      }
      i := i + 1;
    }
    if overallOk {
      assert plan.steps[i..] == [];
    }
    summary := RunSummary(plan.objective, overallOk, executed);
  }
}
