/** The iterative agent: plan, force the summarizer's arguments, execute,
    record observations, and stop on a deterministic completion check or when
    the iterations run out.

    The planner is a sequence of plans, the `i`-th answering iteration `i + 1`;
    a planner with no plan left for an iteration stands for `generate_structured`
    raising. Persistence is an output: a run the loop saves is returned as a
    `SavedRun`. */
module AgentLoop {
  import opened Wrappers
  import opened Strings
  import opened Values
  import opened ToolRouter
  import opened AgentExecutor
  import TextTools
  import Memory

  // ---------------------------------------------------------------------------
  // State
  // ---------------------------------------------------------------------------

  /** One entry of `state.last_tool_results`: `data` when the step was ok,
      `error` otherwise. */
  datatype Observation =
    | Succeeded(stepId: int, toolName: string, data: Dict)
    | Failed(stepId: int, toolName: string, error: Option<string>)

  datatype AgentState = AgentState(notes: seq<string>, lastToolResults: seq<Observation>)

  datatype DoneCheck = DoneCheck(done: bool, rationale: string)

  datatype AgentRunResult = AgentRunResult(
    runId: string, ok: bool, objective: string, iterations: int,
    state: AgentState, finalAnswer: Option<string>)

  /** The arguments of `save_run` that the loop computes. */
  datatype SavedRun = SavedRun(
    runId: string, objective: string, ok: bool, iterations: int, finalAnswer: Option<string>,
    state: AgentState, steps: seq<StepExecution>, memoryUsed: seq<string>)

  datatype LoopOutcome =
    | Returned(result: AgentRunResult, saved: Option<SavedRun>)
    | PlannerRaised(iteration: int)

  // ---------------------------------------------------------------------------
  // Notes
  // ---------------------------------------------------------------------------

  function Bullets(notes: seq<string>): (r: seq<string>)
    ensures |r| == |notes|
    ensures forall i :: 0 <= i < |r| ==> r[i] == "- " + notes[i]
  {
    seq(|notes|, i requires 0 <= i < |notes| => "- " + notes[i])
  }

  /** `_format_notes`. */
  function FormatNotes(notes: seq<string>): string {
    if notes == [] then "- (none)" else Join("\n", Bullets(notes))
  }

  /** With single-line notes, the formatted text has one `- ` line per note. */
  lemma FormatNotesLines(notes: seq<string>)
    requires forall i :: 0 <= i < |notes| ==> '\n' !in notes[i]
    ensures notes == [] ==> FormatNotes(notes) == "- (none)"
    ensures notes != [] ==> Split(FormatNotes(notes), '\n') == Bullets(notes)
  {
    if notes != [] {
      var b := Bullets(notes);
      forall i | 0 <= i < |b| ensures '\n' !in b[i] {
        assert b[i] == "- " + notes[i];
      }
      SplitJoin(b, '\n');
    }
  }

  // ---------------------------------------------------------------------------
  // The completion check
  // ---------------------------------------------------------------------------

  const NoResult := "No tool result available yet."
  const MissingSummary := "Missing data.summary."
  const MissingKeyPoints := "Missing data.key_points (need at least 2)."

  /** `summary.replace("!", ".").replace("?", ".").split(".")`, counting the
      non-blank pieces. */
  function SentenceCount(summary: string): nat {
    |TextTools.StrippedNonBlank(Split(ReplaceAll(ReplaceAll(summary, "!", "."), "?", "."), '.'))|
  }

  /** The `data` dict of an observation: `.get("data") or {}`. */
  function DataOf(o: Observation): Dict {
    if o.Succeeded? then o.data else []
  }

  /** `data.summary` when it is a non-blank string. */
  predicate HasSummary(data: Dict) {
    var v := Get(data, "summary");
    v.Some? && v.value.VStr? && Strip(v.value.s) != []
  }

  /** `data.key_points` when it is a list of at least two items. */
  predicate HasKeyPoints(data: Dict) {
    var v := Get(data, "key_points");
    v.Some? && v.value.VList? && |v.value.items| >= 2
  }

  predicate WantsTwoSentences(objective: string) {
    Contains(Lower(objective), "2 sentence")
  }

  function KeyPointTexts(items: seq<Value>): seq<string> {
    TextTools.StrippedNonBlank(seq(|items|, i requires 0 <= i < |items| => ToStr(items[i])))
  }

  function DoneRationale(summary: string, items: seq<Value>): string {
    "SUMMARY: " + Strip(summary) + "\nKEY POINTS:\n- " + Join("\n- ", KeyPointTexts(items))
  }

  /** `deterministic_done_check`. */
  function CheckDone(objective: string, latest: Option<Observation>): DoneCheck {
    if latest.None? then DoneCheck(false, NoResult)
    else
      var data := DataOf(latest.value);
      if !HasSummary(data) then DoneCheck(false, MissingSummary)
      else if !HasKeyPoints(data) then DoneCheck(false, MissingKeyPoints)
      else
        var summary := Get(data, "summary").value.s;
        var n := SentenceCount(summary);
        if WantsTwoSentences(objective) && (n < 1 || n > 3) then
          DoneCheck(false, "Summary sentence count out of range (got " + NatToString(n) + ", expected 1\U{2013}3).")
        else DoneCheck(true, DoneRationale(summary, Get(data, "key_points").value.items))
  }

  /** The check passes exactly when there is a latest result holding a non-blank
      summary and at least two key points, and, for an objective asking for two
      sentences, the summary has one to three sentences. A passing check's
      rationale starts with the stripped summary. */
  lemma CheckDoneSpec(objective: string, latest: Option<Observation>)
    ensures CheckDone(objective, latest).done <==>
              latest.Some? && HasSummary(DataOf(latest.value)) && HasKeyPoints(DataOf(latest.value))
              && (WantsTwoSentences(objective) ==>
                    1 <= SentenceCount(Get(DataOf(latest.value), "summary").value.s) <= 3)
    ensures latest.None? ==> CheckDone(objective, latest) == DoneCheck(false, NoResult)
    ensures latest.Some? && !HasSummary(DataOf(latest.value)) ==>
              CheckDone(objective, latest) == DoneCheck(false, MissingSummary)
    ensures latest.Some? && HasSummary(DataOf(latest.value)) && !HasKeyPoints(DataOf(latest.value)) ==>
              CheckDone(objective, latest) == DoneCheck(false, MissingKeyPoints)
    ensures CheckDone(objective, latest).done ==>
              StartsWith(CheckDone(objective, latest).rationale,
                         "SUMMARY: " + Strip(Get(DataOf(latest.value), "summary").value.s) + "\nKEY POINTS:\n- ")
    ensures CheckDone(objective, latest).done ==> StartsWith(CheckDone(objective, latest).rationale, "SUMMARY: ")
  {
    if CheckDone(objective, latest).done {
      var data := DataOf(latest.value);
      DoneRationalePrefix(Get(data, "summary").value.s, Get(data, "key_points").value.items);
    }
  }

  lemma DoneRationalePrefix(summary: string, items: seq<Value>)
    ensures StartsWith(DoneRationale(summary, items), "SUMMARY: " + Strip(summary) + "\nKEY POINTS:\n- ")
    ensures StartsWith(DoneRationale(summary, items), "SUMMARY: ")
  {
    var p := "SUMMARY: " + Strip(summary) + "\nKEY POINTS:\n- ";
    var r := DoneRationale(summary, items);
    assert r == p + Join("\n- ", KeyPointTexts(items));
    assert r[..|p|] == p;
    assert r[..9] == p[..9];
  }

  /** A failed step never completes the run. */
  lemma FailedStepNotDone(objective: string, o: Observation)
    requires o.Failed?
    ensures CheckDone(objective, Some(o)) == DoneCheck(false, MissingSummary)
  {
  }

  // ---------------------------------------------------------------------------
  // Payload and the summarizer override
  // ---------------------------------------------------------------------------

  /** `objective.split(":", 1)[1].strip() if ":" in objective else objective`. */
  function Payload(objective: string): string {
    if ':' in objective then Strip(objective[IndexOf(objective, ':') + 1..]) else objective
  }

  /** With a colon, the payload is the text after the first colon, stripped of
      surrounding whitespace (so it holds no text from before that colon);
      without one it is the whole objective. */
  lemma PayloadSpec(objective: string)
    ensures ':' !in objective ==> Payload(objective) == objective
    ensures ':' in objective ==>
              var i := IndexOf(objective, ':');
              ':' !in objective[..i]
              && IsStripped(Payload(objective))
              && Payload(objective) == Strip(objective[i + 1..])
              && |Payload(objective)| < |objective|
  {
    if ':' in objective {
      var i := IndexOf(objective, ':');
      var rest := objective[i + 1..];
      StripCharacterization(rest);
      assert Payload(objective) == Strip(rest);
      assert |Strip(rest)| <= |rest| < |objective|;
    }
  }

  const Summarizer := "summarize_text_local"

  /** The arguments a summarizer step is forced to. */
  function ForceArgs(args: Dict, payload: string): Dict {
    Put(Put(args, "text", VStr(payload)), "max_sentences", VInt(2))
  }

  function OverrideStep(step: PlanStep, payload: string): PlanStep {
    if step.toolName == Summarizer then step.(args := ForceArgs(step.args, payload)) else step
  }

  /** Only summarizer steps change, and only in their `text` and
      `max_sentences` arguments, which become the payload and 2. */
  lemma OverrideStepSpec(step: PlanStep, payload: string, key: string)
    ensures OverrideStep(step, payload).stepId == step.stepId
    ensures OverrideStep(step, payload).toolName == step.toolName
    ensures step.toolName != Summarizer ==> OverrideStep(step, payload) == step
    ensures step.toolName == Summarizer ==>
              Get(OverrideStep(step, payload).args, "text") == Some(VStr(payload))
              && Get(OverrideStep(step, payload).args, "max_sentences") == Some(VInt(2))
    ensures step.toolName == Summarizer && key != "text" && key != "max_sentences" ==>
              Get(OverrideStep(step, payload).args, key) == Get(step.args, key)
  {
    var a1 := Put(step.args, "text", VStr(payload));
    GetPut(step.args, "text", VStr(payload), key);
    GetPut(a1, "max_sentences", VInt(2), key);
    GetPut(a1, "max_sentences", VInt(2), "text");
  }

  /** Every summarizer step carries the payload as its `text`. */
  predicate PayloadEnforced(steps: seq<PlanStep>, payload: string) {
    forall i :: 0 <= i < |steps| ==>
      steps[i].toolName == Summarizer ==> Get(steps[i].args, "text") == Some(VStr(payload))
  }

  /** Overriding every step enforces the payload. */
  lemma OverriddenEnforced(steps: seq<PlanStep>, original: seq<PlanStep>, payload: string)
    requires |steps| == |original|
    requires forall i :: 0 <= i < |steps| ==> steps[i] == OverrideStep(original[i], payload)
    ensures PayloadEnforced(steps, payload)
  {
    forall i | 0 <= i < |steps|
      ensures steps[i].toolName == Summarizer ==> Get(steps[i].args, "text") == Some(VStr(payload))
    {
      OverrideStepSpec(original[i], payload, "text");
    }
  }

  /** The in-place override of every summarizer step's arguments. */
  method OverrideSummarizerArgs(plan: Plan, payload: string) returns (p: Plan)
    ensures p.objective == plan.objective && |p.steps| == |plan.steps|
    ensures forall i :: 0 <= i < |p.steps| ==> p.steps[i] == OverrideStep(plan.steps[i], payload)
    ensures PayloadEnforced(p.steps, payload)
  {
    var steps := plan.steps;
    var i := 0;
    while i < |steps|
      invariant 0 <= i <= |steps| && |steps| == |plan.steps|
      invariant forall j :: 0 <= j < i ==> steps[j] == OverrideStep(plan.steps[j], payload)
      invariant forall j :: i <= j < |steps| ==> steps[j] == plan.steps[j]
    {
      var step := steps[i];
      if step.toolName == Summarizer {
        steps := steps[i := step.(args := ForceArgs(step.args, payload))];
      }
      i := i + 1;
    }
    OverriddenEnforced(steps, plan.steps, payload);
    p := plan.(steps := steps);
  }

  // ---------------------------------------------------------------------------
  // Observing executed steps
  // ---------------------------------------------------------------------------

  function ObservationOf(e: StepExecution): Observation {
    if e.ok then Succeeded(e.stepId, e.toolName, e.data) else Failed(e.stepId, e.toolName, e.error)
  }

  function NoteOf(e: StepExecution): string {
    var head := "Step " + IntToString(e.stepId) + " (" + e.toolName + ") ";
    if e.ok then head + "succeeded." else head + "failed: " + OptStr(e.error)
  }

  /** The state after observing `es`: one note and one result per execution. */
  function Observe(s: AgentState, es: seq<StepExecution>): (r: AgentState)
    ensures |r.notes| == |s.notes| + |es| && r.notes[..|s.notes|] == s.notes
    ensures |r.lastToolResults| == |s.lastToolResults| + |es| && r.lastToolResults[..|s.lastToolResults|] == s.lastToolResults
    ensures forall i :: 0 <= i < |es| ==>
              r.notes[|s.notes| + i] == NoteOf(es[i]) && r.lastToolResults[|s.lastToolResults| + i] == ObservationOf(es[i])
  {
    AgentState(s.notes + seq(|es|, i requires 0 <= i < |es| => NoteOf(es[i])),
               s.lastToolResults + seq(|es|, i requires 0 <= i < |es| => ObservationOf(es[i])))
  }

  /** Each observation keeps the step's id and tool, and holds data exactly
      when the step was ok. */
  lemma ObservationShape(e: StepExecution)
    ensures ObservationOf(e).stepId == e.stepId && ObservationOf(e).toolName == e.toolName
    ensures ObservationOf(e).Succeeded? <==> e.ok
    ensures e.ok ==> ObservationOf(e).data == e.data
    ensures !e.ok ==> ObservationOf(e).error == e.error
    ensures StartsWith(NoteOf(e), "Step " + IntToString(e.stepId) + " (" + e.toolName + ") ")
  {
    var head := "Step " + IntToString(e.stepId) + " (" + e.toolName + ") ";
    assert NoteOf(e)[..|head|] == head;
  }

  // ---------------------------------------------------------------------------
  // One iteration and the loop
  // ---------------------------------------------------------------------------

  datatype Env = Env(
    tools: map<string, ToolFn>, objective: string, maxIterations: int, dryRun: bool,
    planner: seq<Plan>, runId: string, memoryUsed: seq<string>)

  datatype IterOutcome =
    | Continue(state: AgentState, log: seq<StepExecution>)
    | Stop(result: AgentRunResult, saved: Option<SavedRun>)

  const EmptyPlanNote := "Planner returned empty steps."
  const DryRunEmpty := "[DRY RUN] Empty plan generated."
  const DryRunPrefix := "[DRY RUN] Plan: "

  /** `plan.model_dump()`. */
  function PlanDump(p: Plan): Value {
    VDict([Entry("objective", VStr(p.objective)),
           Entry("steps", VList(seq(|p.steps|, i requires 0 <= i < |p.steps| =>
             VDict([Entry("step_id", VInt(p.steps[i].stepId)),
                    Entry("tool_name", VStr(p.steps[i].toolName)),
                    Entry("args", VDict(p.steps[i].args))]))))])
  }

  function Saved(env: Env, r: AgentRunResult, log: seq<StepExecution>): SavedRun {
    SavedRun(r.runId, r.objective, r.ok, r.iterations, r.finalAnswer, r.state, log, env.memoryUsed)
  }

  function Latest(s: AgentState): Option<Observation> {
    if s.lastToolResults == [] then None else Some(s.lastToolResults[|s.lastToolResults| - 1])
  }

  /** The plan as overridden. */
  function Overridden(env: Env, plan: Plan): Plan {
    plan.(steps := seq(|plan.steps|, i requires 0 <= i < |plan.steps| =>
                         OverrideStep(plan.steps[i], Payload(env.objective))))
  }

  /** One iteration of the loop on the plan the planner gave. The body stays
      folded in callers' proofs; `IterateUnfold` reveals it. */
  function Iterate(env: Env, iteration: int, plan: Plan, s: AgentState, log: seq<StepExecution>): IterOutcome {
    IterateSteps(env, iteration, plan, s, log, Depth(plan))
  }

  lemma IterateUnfold(env: Env, iteration: int, plan: Plan, s: AgentState, log: seq<StepExecution>)
    ensures Iterate(env, iteration, plan, s, log) == IterateSteps(env, iteration, plan, s, log, 0)
  {
    assert IterateSteps(env, iteration, plan, s, log, 3) == IterateSteps(env, iteration, plan, s, log, 0);
  }

  function IterateSteps(env: Env, iteration: int, plan: Plan, s: AgentState, log: seq<StepExecution>, steps: nat): IterOutcome
    decreases steps
  {
    if steps > 0 then IterateSteps(env, iteration, plan, s, log, steps - 1)
    else if plan.steps == [] then
      var s' := s.(notes := s.notes + [EmptyPlanNote]);
      if env.dryRun then
        Stop(AgentRunResult(env.runId, false, env.objective, iteration, s', Some(DryRunEmpty)), None)
      else Continue(s', log)
    else if env.dryRun then
      Stop(AgentRunResult(env.runId, true, env.objective, iteration, s,
                          Some(DryRunPrefix + Repr(PlanDump(Overridden(env, plan))))), None)
    else
      var es := Execute(env.tools, Overridden(env, plan).steps);
      var s' := Observe(s, es);
      var log' := log + es;
      var dc := CheckDone(env.objective, Latest(s'));
      if dc.done then
        var r := AgentRunResult(env.runId, true, env.objective, iteration, s', Some(dc.rationale));
        Stop(r, Some(Saved(env, r, log')))
      else Continue(s', log')
  }

  /** The iteration on an empty plan. */
  lemma IterateEmpty(env: Env, iteration: int, plan: Plan, s: AgentState, log: seq<StepExecution>)
    requires plan.steps == []
    ensures var s' := s.(notes := s.notes + [EmptyPlanNote]);
      Iterate(env, iteration, plan, s, log)
      == if env.dryRun then Stop(AgentRunResult(env.runId, false, env.objective, iteration, s', Some(DryRunEmpty)), None)
         else Continue(s', log)
  {
    IterateUnfold(env, iteration, plan, s, log);
  }

  /** The dry-run iteration on a non-empty plan. */
  lemma IterateDry(env: Env, iteration: int, plan: Plan, s: AgentState, log: seq<StepExecution>)
    requires plan.steps != [] && env.dryRun
    ensures Iterate(env, iteration, plan, s, log)
            == Stop(AgentRunResult(env.runId, true, env.objective, iteration, s,
                                   Some(DryRunPrefix + Repr(PlanDump(Overridden(env, plan))))), None)
  {
    IterateUnfold(env, iteration, plan, s, log);
  }

  /** The executing iteration on a non-empty plan, given its records `es`. */
  lemma IterateExecuted(env: Env, iteration: int, plan: Plan, s: AgentState, log: seq<StepExecution>,
                        es: seq<StepExecution>)
    requires plan.steps != [] && !env.dryRun
    requires es == Execute(env.tools, Overridden(env, plan).steps)
    ensures var s' := Observe(s, es);
      var dc := CheckDone(env.objective, Latest(s'));
      var r := AgentRunResult(env.runId, true, env.objective, iteration, s', Some(dc.rationale));
      Iterate(env, iteration, plan, s, log)
      == if dc.done then Stop(r, Some(Saved(env, r, log + es))) else Continue(s', log + es)
  {
    IterateUnfold(env, iteration, plan, s, log);
  }

  /** The loop from `iteration` on. */
  function Loop(env: Env, iteration: int, s: AgentState, log: seq<StepExecution>): LoopOutcome
    requires iteration >= 1
    decreases if iteration <= env.maxIterations then env.maxIterations - iteration + 1 else 0
  {
    if iteration > env.maxIterations then
      var r := AgentRunResult(env.runId, false, env.objective, env.maxIterations, s, None);
      Returned(r, Some(Saved(env, r, log)))
    else if iteration > |env.planner| then PlannerRaised(iteration)
    else
      match Iterate(env, iteration, env.planner[iteration - 1], s, log)
      case Stop(r, saved) => Returned(r, saved)
      case Continue(s', log') => Loop(env, iteration + 1, s', log')
  }

  /** A state grows by appending only. */
  predicate Extends(s: AgentState, t: AgentState) {
    s.notes <= t.notes && s.lastToolResults <= t.lastToolResults
  }

  /** An iteration appends one note for an empty plan, and one note and one
      result per executed step otherwise; a continuing iteration executed
      nothing or its check did not pass. */
  lemma IterateSpec(env: Env, iteration: int, plan: Plan, s: AgentState, log: seq<StepExecution>)
    ensures plan.steps == [] && !env.dryRun ==>
              Iterate(env, iteration, plan, s, log) == Continue(s.(notes := s.notes + [EmptyPlanNote]), log)
    ensures plan.steps != [] && !env.dryRun ==>
              var es := Execute(env.tools, Overridden(env, plan).steps);
              match Iterate(env, iteration, plan, s, log)
              case Continue(s', log') => s' == Observe(s, es) && log' == log + es
                                         && !CheckDone(env.objective, Latest(s')).done
              case Stop(r, saved) => r.state == Observe(s, es) && r.ok && r.iterations == iteration
                                     && CheckDone(env.objective, Latest(r.state)).done
                                     && r.finalAnswer == Some(CheckDone(env.objective, Latest(r.state)).rationale)
                                     && saved == Some(Saved(env, r, log + es))
    ensures match Iterate(env, iteration, plan, s, log)
            case Continue(s', log') => Extends(s, s') && log <= log'
            case Stop(r, _) => Extends(s, r.state) && r.runId == env.runId && r.objective == env.objective
  {
    IterateUnfold(env, iteration, plan, s, log);
  }

  /** A run that stops on a passing check answers with its rationale. */
  lemma StopAnswer(env: Env, iteration: int, plan: Plan, s: AgentState, log: seq<StepExecution>)
    requires !env.dryRun && Iterate(env, iteration, plan, s, log).Stop?
    ensures var r := Iterate(env, iteration, plan, s, log).result;
            r.ok && r.iterations == iteration && CheckDone(env.objective, Latest(r.state)).done
            && r.finalAnswer.Some? && StartsWith(r.finalAnswer.value, "SUMMARY: ")
            && Iterate(env, iteration, plan, s, log).saved
               == Some(Saved(env, r, log + Execute(env.tools, Overridden(env, plan).steps)))
  {
    IterateSpec(env, iteration, plan, s, log);
    var r := Iterate(env, iteration, plan, s, log).result;
    CheckDoneSpec(env.objective, Latest(r.state));
  }

  /** The outcome of a loop started at `iteration` in state `s` with log `log`. */
  predicate LoopPost(env: Env, iteration: int, s: AgentState, log: seq<StepExecution>, out: LoopOutcome) {
    match out
    case PlannerRaised(i) => iteration <= i <= env.maxIterations && i > |env.planner|
    case Returned(r, saved) =>
      r.runId == env.runId && r.objective == env.objective && Extends(s, r.state)
      && (!env.dryRun ==> saved.Some? && saved.value == Saved(env, r, saved.value.steps) && log <= saved.value.steps)
      && (!env.dryRun && r.ok ==>
            iteration <= r.iterations <= env.maxIterations
            && r.finalAnswer.Some? && StartsWith(r.finalAnswer.value, "SUMMARY: ")
            && CheckDone(env.objective, Latest(r.state)).done)
      && (!env.dryRun && !r.ok ==> r.iterations == env.maxIterations && r.finalAnswer.None?)
      && (env.dryRun && iteration <= env.maxIterations ==> saved.None? && r.iterations == iteration)
  }

  /** What the loop promises: a completed run is ok with the iteration it
      stopped at and a rationale for its answer; an exhausted run is not ok,
      reports `max_iterations` and has no answer; both are saved unless it was
      a dry run; a dry run returns at the first iteration; the state only
      grows. */
  lemma {:induction false} LoopSpec(env: Env, iteration: int, s: AgentState, log: seq<StepExecution>)
    requires iteration >= 1
    ensures LoopPost(env, iteration, s, log, Loop(env, iteration, s, log))
    decreases if iteration <= env.maxIterations then env.maxIterations - iteration + 1 else 0
  {
    if iteration <= env.maxIterations && iteration <= |env.planner| {
      var plan := env.planner[iteration - 1];
      var it := Iterate(env, iteration, plan, s, log);
      IterateSpec(env, iteration, plan, s, log);
      if it.Stop? {
        if !env.dryRun {
          StopAnswer(env, iteration, plan, s, log);
        }
      } else {
        LoopSpec(env, iteration + 1, it.state, it.log);
      }
    }
  }

  // ---------------------------------------------------------------------------
  // The loop as the source runs it
  // ---------------------------------------------------------------------------

  /** The ids of the retrieved memories, in order. */
  function RunIds(memories: seq<Memory.MemoryRecord>): (ids: seq<string>)
    ensures |ids| == |memories| && forall i :: 0 <= i < |ids| ==> ids[i] == memories[i].runId
  {
    seq(|memories|, i requires 0 <= i < |memories| => memories[i].runId)
  }

  /** `memory_used`: the run ids of `find_relevant_runs(objective, k=3,
      scan_limit=50)` over the run store `store`, whose runs load as
      `loaded` says. */
  function MemoryUsed(objective: string, store: seq<Memory.RunRow>, loaded: map<string, Memory.StoredRun>): seq<string> {
    RunIds(Memory.Collect(Memory.TopCandidates(objective, 3, 50, store), loaded))
  }

  /** The run records at most three memories, no more than the store holds
      or the 50 most recent runs; each is a run that loads, listed from
      the most similar down. */
  lemma MemoryUsedSpec(objective: string, store: seq<Memory.RunRow>, loaded: map<string, Memory.StoredRun>)
    ensures var ids := MemoryUsed(objective, store, loaded);
            |ids| <= 3 && |ids| <= |store|
            && forall i :: 0 <= i < |ids| ==> ids[i] in loaded
    ensures var ms := Memory.Collect(Memory.TopCandidates(objective, 3, 50, store), loaded);
            forall i, j :: 0 <= i < j < |ms| ==> ms[i].similarity >= ms[j].similarity
  {
    var top := Memory.TopCandidates(objective, 3, 50, store);
    Memory.RelevantRunsSpec(objective, 3, 50, store, loaded);
    Memory.CollectProvenance(top, loaded);
  }

  /** The memory retrieval at the start of `run_agent_loop`. */
  method RetrieveMemory(objective: string, store: seq<Memory.RunRow>, loaded: map<string, Memory.StoredRun>)
    returns (memoryUsed: seq<string>)
    ensures memoryUsed == MemoryUsed(objective, store, loaded)
  {
    var memories := Memory.FindRelevantRuns(objective, 3, 50, store, loaded);
    memoryUsed := RunIds(memories);
  }

  /** `run_agent_loop`. Memories are retrieved once, from the run store
      `store` and the runs that load from it (`loaded`), and their ids are
      saved with the run. The payload-mismatch `RuntimeError` cannot be
      raised: the override has just set every summarizer step's text to the
      payload. */
  method RunAgentLoop(registry: ToolRegistry, objective: string, maxIterations: int, dryRun: bool,
                      planner: seq<Plan>, runId: string,
                      store: seq<Memory.RunRow>, loaded: map<string, Memory.StoredRun>)
    returns (out: LoopOutcome)
    ensures out == Loop(Env(registry.tools, objective, maxIterations, dryRun, planner, runId,
                            MemoryUsed(objective, store, loaded)),
                        1, AgentState([], []), [])
  {
    var memoryUsed := RetrieveMemory(objective, store, loaded);
    var env := Env(registry.tools, objective, maxIterations, dryRun, planner, runId, memoryUsed);
    var payload := Payload(objective);
    var state := AgentState([], []);
    var log: seq<StepExecution> := [];
    var iteration := 1;
    while iteration <= maxIterations
      invariant iteration >= 1
      invariant Loop(env, iteration, state, log) == Loop(env, 1, AgentState([], []), [])
      decreases maxIterations - iteration + 1
    {
      if iteration > |planner| {
        return PlannerRaised(iteration);
      }
      var plan := planner[iteration - 1];
      if plan.steps == [] {
        IterateEmpty(env, iteration, plan, state, log);
        state := state.(notes := state.notes + [EmptyPlanNote]);
        if dryRun {
          return Returned(AgentRunResult(runId, false, objective, iteration, state, Some(DryRunEmpty)), None);
        }
        iteration := iteration + 1;
        continue;
      }
      plan := OverrideSummarizerArgs(plan, payload);
      assert plan == Overridden(env, planner[iteration - 1]);
      // The guard below is the source's `RuntimeError`; the override's
      // `PayloadEnforced` rules it out.
      var k := 0;
      while k < |plan.steps|
        invariant 0 <= k <= |plan.steps|
        invariant forall j :: 0 <= j < k && plan.steps[j].toolName == Summarizer ==>
                    Get(plan.steps[j].args, "text") == Some(VStr(payload))
      {
        if plan.steps[k].toolName == Summarizer && Get(plan.steps[k].args, "text") != Some(VStr(payload)) {
          assert false;
        }
        k := k + 1;
      }
      if dryRun {
        IterateDry(env, iteration, planner[iteration - 1], state, log);
        return Returned(AgentRunResult(runId, true, objective, iteration, state,
                                       Some(DryRunPrefix + Repr(PlanDump(plan)))), None);
      }
      var summary := ExecutePlan(registry, plan, runId);
      IterateExecuted(env, iteration, planner[iteration - 1], state, log, summary.steps);
      log := log + summary.steps;
      state := Observe(state, summary.steps);
      var latest := if state.lastToolResults == [] then None
                    else Some(state.lastToolResults[|state.lastToolResults| - 1]);
      var doneCheck := CheckDone(objective, latest);
      if doneCheck.done {
        var result := AgentRunResult(runId, true, objective, iteration, state, Some(doneCheck.rationale));
        return Returned(result, Some(Saved(env, result, log)));
      }
      iteration := iteration + 1;
    }
    var result := AgentRunResult(runId, false, objective, maxIterations, state, None);
    return Returned(result, Some(Saved(env, result, log)));
  }
}
