/** The gate notification: the tool names recorded in a run's steps, their
    de-duplicated summary, and the subject and body of the `gate_judge` email.

    JSON decoding (`json.loads`), the timestamp rendering of `_fmt_ts` and
    Python's `str(float)` are not modelled: each is a parameter (`parse`,
    `created`, `floatStr`). */
module Notify {
  import opened Wrappers
  import opened Strings
  import opened Values

  /** `_safe_json_loads(s, default)`, with `parse` for `json.loads` (`None`
      when it raises): missing or empty text, or text that does not parse,
      gives the default; otherwise the parsed value. */
  function SafeJsonLoads(s: Option<string>, default: Value, parse: string -> Option<Value>): (r: Value)
    ensures s.None? || s == Some("") ==> r == default
    ensures r == default || (s.Some? && parse(s.value) == Some(r))
    ensures s.Some? && s.value != "" && parse(s.value).Some? ==> r == parse(s.value).value
  {
    if s.None? || s.value == "" then default
    else match parse(s.value)
      case None => default
      case Some(v) => v
  }

  // ---------------------------------------------------------------------------
  // Tool names of the recorded steps
  // ---------------------------------------------------------------------------

  /** `d.get(key)`, with a missing key read as `None`. */
  function GetOrNone(d: Dict, key: string): Value {
    if Get(d, key).Some? then Get(d, key).value else VNone
  }

  /** The tool name one step contributes: `tool_name or tool or name` of a
      dict step, kept only when it is a non-empty string. A truthy value that
      is not a string hides the fields after it. */
  function StepTool(step: Value): (r: Option<string>)
    ensures r.Some? ==> r.value != [] && step.VDict?
    ensures r.Some? ==> VStr(r.value) in {GetOrNone(step.entries, "tool_name"),
                                          GetOrNone(step.entries, "tool"),
                                          GetOrNone(step.entries, "name")}
  {
    if !step.VDict? then None
    else
      var d := step.entries;
      var t := if Truthy(GetOrNone(d, "tool_name")) then GetOrNone(d, "tool_name")
               else if Truthy(GetOrNone(d, "tool")) then GetOrNone(d, "tool")
               else GetOrNone(d, "name");
      if t.VStr? && t.s != [] then Some(t.s) else None
  }

  /** The tool names of a list of steps, in order. */
  function ToolsOf(steps: seq<Value>): (r: seq<string>)
    ensures |r| <= |steps|
    ensures forall i :: 0 <= i < |r| ==> r[i] != []
    decreases |steps|
  {
    if steps == [] then []
    else
      var rest := ToolsOf(steps[..|steps| - 1]);
      match StepTool(steps[|steps| - 1])
      case None => rest
      case Some(t) => rest + [t]
  }

  /** `_extract_tools_from_steps(steps)`: nothing for a value that is not a list. */
  function ExtractTools(steps: Value): seq<string> {
    if steps.VList? then ToolsOf(steps.items) else []
  }

  /** The names of consecutive runs of steps concatenate: the extraction
      keeps the steps' order, and each step adds exactly its own name. */
  lemma {:induction false} ToolsOfConcat(a: seq<Value>, b: seq<Value>)
    ensures ToolsOf(a + b) == ToolsOf(a) + ToolsOf(b)
    decreases |b|
  {
    if b == [] {
      assert a + b == a;
    } else {
      ToolsOfConcat(a, b[..|b| - 1]);
      assert (a + b)[..|a + b| - 1] == a + b[..|b| - 1];
      assert (a + b)[|a + b| - 1] == b[|b| - 1];
    }
  }

  /** A single step contributes its own name, or nothing. */
  lemma ToolsOfSingle(x: Value)
    ensures ToolsOf([x]) == if StepTool(x).Some? then [StepTool(x).value] else []
  {
    assert [x][..0] == [];
  }

  /** `_extract_tools_from_steps`, appending in a loop. */
  method ExtractToolsFromSteps(steps: Value) returns (tools: seq<string>)
    ensures tools == ExtractTools(steps)
  {
    tools := [];
    if !steps.VList? {
      return;
    }
    var items := steps.items;
    var i := 0;
    while i < |items|
      invariant 0 <= i <= |items|
      invariant tools == ToolsOf(items[..i])
    {
      assert items[..i + 1][..i] == items[..i];
      var t := StepTool(items[i]);
      if t.Some? {
        tools := tools + [t.value];
      }
      i := i + 1;
    }
    assert items[..i] == items;
  }

  // ---------------------------------------------------------------------------
  // The tool summary
  // ---------------------------------------------------------------------------

  predicate Distinct(xs: seq<string>) {
    forall i, j :: 0 <= i < j < |xs| ==> xs[i] != xs[j]
  }

  /** The first occurrence of each item, in order. */
  function Dedup(xs: seq<string>): (r: seq<string>)
    ensures Distinct(r)
    ensures forall x :: x in r <==> x in xs
    ensures |r| <= |xs|
    decreases |xs|
  {
    if xs == [] then []
    else
      var d := Dedup(xs[..|xs| - 1]);
      var x := xs[|xs| - 1];
      assert forall y :: y in xs <==> y in xs[..|xs| - 1] || y == x by {
        assert xs == xs[..|xs| - 1] + [x];
      }
      if x in d then d else d + [x]
  }

  /** Items that are already distinct are kept as they are; in particular
      de-duplicating twice changes nothing. */
  lemma {:induction false} DedupDistinct(xs: seq<string>)
    requires Distinct(xs)
    ensures Dedup(xs) == xs
    decreases |xs|
  {
    if xs != [] {
      var init := xs[..|xs| - 1];
      assert Distinct(init);
      DedupDistinct(init);
      assert xs[|xs| - 1] !in init;
      assert xs == init + [xs[|xs| - 1]];
    }
  }

  lemma DedupIdempotent(xs: seq<string>)
    ensures Dedup(Dedup(xs)) == Dedup(xs)
  {
    DedupDistinct(Dedup(xs));
  }

  /** The text after the first `maxItems` names when more are left out. */
  function MoreSuffix(excess: nat): string {
    ", \U{2026} (+" + NatToString(excess) + " more)"
  }

  /** `_summarize_tools(tools, max_items)`: `"None"` for no tools, else the
      distinct names in first-seen order, cut to `maxItems` with a count of
      the rest. */
  function SummarizeTools(tools: seq<string>, maxItems: int): (r: string)
    ensures tools == [] ==> r == "None"
    ensures tools != [] && |Dedup(tools)| <= maxItems ==> r == Join(", ", Dedup(tools))
    ensures tools != [] && |Dedup(tools)| > maxItems ==>
              r == Join(", ", Take(Dedup(tools), maxItems)) + MoreSuffix(|Dedup(tools)| - maxItems)
  {
    if tools == [] then "None"
    else
      var uniq := Dedup(tools);
      if |uniq| <= maxItems then Join(", ", uniq)
      else Join(", ", Take(uniq, maxItems)) + MoreSuffix(|uniq| - maxItems)
  }

  /** With a non-negative limit and more distinct names than it, exactly
      `maxItems` of them are listed and the count is of the others. */
  lemma SummaryCut(tools: seq<string>, maxItems: nat)
    requires |Dedup(tools)| > maxItems
    ensures |Take(Dedup(tools), maxItems)| == maxItems
    ensures Take(Dedup(tools), maxItems) <= Dedup(tools)
    ensures maxItems + (|Dedup(tools)| - maxItems) == |Dedup(tools)|
    ensures EndsWith(SummarizeTools(tools, maxItems), " more)")
  {
    var r := SummarizeTools(tools, maxItems);
    assert tools != [];
    var pre := Join(", ", Take(Dedup(tools), maxItems));
    var suf := MoreSuffix(|Dedup(tools)| - maxItems);
    assert r == pre + suf;
    assert suf[|suf| - 6..] == " more)";
    assert r[|r| - 6..] == suf[|suf| - 6..];
  }

  /** `_summarize_tools`, with the `seen` set and the `uniq` list of its loop. */
  method SummarizeToolList(tools: seq<string>, maxItems: int) returns (r: string)
    ensures r == SummarizeTools(tools, maxItems)
  {
    if tools == [] {
      return "None";
    }
    var uniq: seq<string> := [];
    var seen: set<string> := {};
    var i := 0;
    while i < |tools|
      invariant 0 <= i <= |tools|
      invariant uniq == Dedup(tools[..i])
      invariant forall t :: t in seen <==> t in tools[..i]
    {
      assert tools[..i + 1][..i] == tools[..i];
      assert forall t :: t in tools[..i + 1] <==> t in tools[..i] || t == tools[i] by {
        assert tools[..i + 1] == tools[..i] + [tools[i]];
      }
      if tools[i] !in seen {
        uniq := uniq + [tools[i]];
        seen := seen + {tools[i]};
      }
      i := i + 1;
    }
    assert tools[..i] == tools;
    if |uniq| <= maxItems {
      r := Join(", ", uniq);
    } else {
      r := Join(", ", Take(uniq, maxItems)) + MoreSuffix(|uniq| - maxItems);
    }
  }

  // ---------------------------------------------------------------------------
  // The gate_judge email
  // ---------------------------------------------------------------------------

  /** The stored run fields the email reads. `created` is the already
      rendered creation time; the three `*_json` columns are raw text. */
  datatype EmailRun = EmailRun(
    runId: string, created: string, objective: Option<string>, ok: bool,
    iterations: Value, totalTokens: Value, totalCost: real,
    finalAnswer: Option<string>, stepsJson: Option<string>, memoryUsedJson: Option<string>)

  /** A judge report: its numeric scores by name, its model if recorded, and
      the names of its other entries (such as `reasons`). */
  datatype JudgeReport = JudgeReport(scores: map<string, real>, judgeModel: Option<string>, otherKeys: set<string>)

  /** The four thresholds of the gate, in the order the email lists them. */
  datatype Thresholds = Thresholds(minOverall: real, minCorrectness: real, minSafety: real, maxCost: real)

  datatype Email = Email(subject: string, body: string)

  function Status(failReasons: seq<string>): string {
    if failReasons != [] then "FAIL" else "PASS"
  }

  function Subject(status: string, runId: string): string {
    "[autoops-ai] gate_judge " + status + " run_id=" + runId
  }

  function BoolText(b: bool): string {
    if b then "True" else "False"
  }

  /** The score names the judge summary lists, in order. */
  const ScoreKeys: seq<string> := ["overall", "correctness", "completeness", "concision", "clarity", "safety"]

  /** One line per listed score the report holds. */
  function ScoreLines(keys: seq<string>, scores: map<string, real>): (r: seq<string>)
    ensures |r| <= |keys|
    decreases |keys|
  {
    if keys == [] then []
    else
      var rest := ScoreLines(keys[..|keys| - 1], scores);
      var k := keys[|keys| - 1];
      if k in scores then rest + ["  " + k + ": " + FormatFixed(scores[k], 3)] else rest
  }

  /** `"  k: v"` for each threshold, `floatStr` rendering the value. */
  function ThresholdLines(t: Thresholds, floatStr: real -> string): seq<string> {
    ["  min_overall: " + floatStr(t.minOverall), "  min_correctness: " + floatStr(t.minCorrectness),
     "  min_safety: " + floatStr(t.minSafety), "  max_cost: " + floatStr(t.maxCost)]
  }

  /** The string items of a list, or the `TypeError` of `", ".join` at the
      first item that is not a string. */
  function StrItems(items: seq<Value>, offset: nat): (r: Result<seq<string>, string>)
    ensures r.Ok? ==> |r.value| == |items|
    ensures r.Ok? <==> forall i :: 0 <= i < |items| ==> items[i].VStr?
    decreases |items|
  {
    if items == [] then Ok([])
    else if !items[0].VStr? then
      Err("sequence item " + NatToString(offset) + ": expected str instance, " + TypeName(items[0]) + " found")
    else
      match StrItems(items[1..], offset + 1)
      case Err(e) => Err(e)
      case Ok(rest) => Ok([items[0].s] + rest)
  }

  /** The memory lines of the execution summary: none unless the parsed
      `memory_used` is a non-empty list; then its size and the first five
      ids, with `" …"` when there are more. */
  function MemoryLines(memoryUsed: Value): (r: Result<seq<string>, string>)
    ensures r.Ok? && (!memoryUsed.VList? || memoryUsed.items == []) ==> r.value == []
    ensures r.Ok? && memoryUsed.VList? && memoryUsed.items != [] ==>
              |r.value| == 2 && r.value[0] == "  Memory used: " + NatToString(|memoryUsed.items|)
  {
    if !memoryUsed.VList? || memoryUsed.items == [] then Ok([])
    else
      var items := memoryUsed.items;
      match StrItems(Take(items, 5), 0)
      case Err(e) => Err("TypeError: " + e)
      case Ok(ids) =>
        Ok(["  Memory used: " + NatToString(|items|),
                 "  Memory IDs (preview): " + Join(", ", ids) + (if |items| > 5 then " \U{2026}" else "")])
  }

  /** The preview names at most five ids, the first ones of the list, and
      is marked as cut exactly when the list is longer. */
  lemma MemoryPreview(memoryUsed: Value)
    requires memoryUsed.VList? && memoryUsed.items != []
    requires MemoryLines(memoryUsed).Ok?
    ensures var items := memoryUsed.items;
            var n := if |items| < 5 then |items| else 5;
            StrItems(items[..n], 0).Ok?
            && |StrItems(items[..n], 0).value| == n <= 5
            && MemoryLines(memoryUsed).value[1]
               == "  Memory IDs (preview): " + Join(", ", StrItems(items[..n], 0).value)
                  + (if |items| > 5 then " \U{2026}" else "")
  {
  }

  /** One `"  - reason"` line per reason. */
  function ReasonLines(failReasons: seq<string>): (r: seq<string>)
    ensures |r| == |failReasons|
    ensures forall i :: 0 <= i < |r| ==> r[i] == "  - " + failReasons[i]
    decreases |failReasons|
  {
    if failReasons == [] then []
    else ReasonLines(failReasons[..|failReasons| - 1]) + ["  - " + failReasons[|failReasons| - 1]]
  }

  /** The closing section: the passing line, or one `"  - reason"` line per
      reason under a heading. */
  function VerdictLines(failReasons: seq<string>): (r: seq<string>)
    ensures failReasons == [] ==> r == ["PASS: all thresholds met", ""]
    ensures failReasons != [] ==>
              |r| == |failReasons| + 2 && r[0] == "FAIL reasons:" && r[|r| - 1] == ""
              && forall i :: 0 <= i < |failReasons| ==> r[i + 1] == "  - " + failReasons[i]
  {
    if failReasons == [] then ["PASS: all thresholds met", ""]
    else ["FAIL reasons:"] + ReasonLines(failReasons) + [""]
  }

  /** `  python -m autoops.tools.runs <command> <run_id>`. */
  function RunsCommand(command: string, runId: string): string {
    "  python -m autoops.tools.runs " + command + " " + runId
  }

  /** ` --<name> <value>`. */
  function Flag(name: string, value: string): string {
    " --" + name + " " + value
  }

  /** The commands that reproduce the gate. */
  function ReproduceLines(runId: string, t: Thresholds, floatStr: real -> string): (r: seq<string>)
    ensures |r| == 4
  {
    ["Reproduce:",
     RunsCommand("show", runId),
     RunsCommand("judge", runId),
     RunsCommand("gate_judge", runId) + Flag("min_overall", floatStr(t.minOverall))
     + Flag("min_correctness", floatStr(t.minCorrectness)) + Flag("min_safety", floatStr(t.minSafety))
     + Flag("max_cost", floatStr(t.maxCost))]
  }

  /** The reproduce section: a heading, the `show` and `judge` commands for
      the run, then the `gate_judge` command for the run followed by the four
      thresholds, rendered by `floatStr`, in the order `min_overall`,
      `min_correctness`, `min_safety`, `max_cost`, and nothing after them. */
  lemma ReproduceLinesSpec(runId: string, t: Thresholds, floatStr: real -> string)
    ensures var r := ReproduceLines(runId, t, floatStr);
            var gate := RunsCommand("gate_judge", runId);
            var o := Flag("min_overall", floatStr(t.minOverall));
            var c := Flag("min_correctness", floatStr(t.minCorrectness));
            var sa := Flag("min_safety", floatStr(t.minSafety));
            var m := Flag("max_cost", floatStr(t.maxCost));
            |r| == 4 && r[0] == "Reproduce:"
            && r[1] == RunsCommand("show", runId) && r[2] == RunsCommand("judge", runId)
            && OccursAt(r[3], gate, 0)
            && OccursAt(r[3], o, |gate|)
            && OccursAt(r[3], c, |gate| + |o|)
            && OccursAt(r[3], sa, |gate| + |o| + |c|)
            && OccursAt(r[3], m, |gate| + |o| + |c| + |sa|)
            && |r[3]| == |gate| + |o| + |c| + |sa| + |m|
  {
    ConcatFive(RunsCommand("gate_judge", runId), Flag("min_overall", floatStr(t.minOverall)),
               Flag("min_correctness", floatStr(t.minCorrectness)), Flag("min_safety", floatStr(t.minSafety)),
               Flag("max_cost", floatStr(t.maxCost)));
  }

  /** A command ends with its run id, after the command's name. */
  lemma RunsCommandSpec(command: string, runId: string)
    ensures var p := "  python -m autoops.tools.runs " + command + " ";
            OccursAt(RunsCommand(command, runId), p, 0)
            && OccursAt(RunsCommand(command, runId), runId, |p|)
            && |RunsCommand(command, runId)| == |p| + |runId|
  {
    ConcatParts("  python -m autoops.tools.runs " + command + " ", runId);
  }

  /** Both parts of a concatenation occur in it where they were put. */
  lemma ConcatParts(x: string, y: string)
    ensures OccursAt(x + y, x, 0) && OccursAt(x + y, y, |x|)
  {
    assert (x + y)[..|x|] == x;
    assert (x + y)[|x|..] == y;
  }

  /** Each of five concatenated parts occurs in the whole where it was put. */
  lemma ConcatFive(a: string, b: string, c: string, d: string, e: string)
    ensures var w := a + b + c + d + e;
            OccursAt(w, a, 0) && OccursAt(w, b, |a|) && OccursAt(w, c, |a| + |b|)
            && OccursAt(w, d, |a| + |b| + |c|) && OccursAt(w, e, |a| + |b| + |c| + |d|)
            && |w| == |a| + |b| + |c| + |d| + |e|
  {
    var w := a + b + c + d + e;
    assert w[..|a|] == a;
    assert w[|a|..|a| + |b|] == b;
    assert w[|a| + |b|..|a| + |b| + |c|] == c;
    assert w[|a| + |b| + |c|..|a| + |b| + |c| + |d|] == d;
    assert w[|a| + |b| + |c| + |d|..] == e;
  }

  /** `(x or "").strip()`. */
  function StrippedText(x: Option<string>): string {
    Strip(if x.Some? then x.value else "")
  }

  /** The heading lines: status, run id, creation time, outcome, tokens when
      recorded, and cost. */
  function HeaderLines(run: EmailRun, status: string): seq<string> {
    ["gate_judge " + status, "Run ID: " + run.runId, "Created: " + run.created,
     "Run OK: " + BoolText(run.ok) + " | Iterations: " + ToStr(run.iterations)]
    + (if run.totalTokens != VNone then ["Tokens: " + ToStr(run.totalTokens)] else [])
    + ["Cost: $" + FormatFixed(run.totalCost, 4), ""]
  }

  /** The objective, and the answer preview when there is an answer; both
      arrive stripped. */
  function ContextLines(objective: string, answer: string): seq<string> {
    ["Objective:", if objective != [] then Take(objective, 800) else "(empty)", ""]
    + (if answer != [] then ["Final answer (preview):", Take(answer, 800), ""] else [])
  }

  function ExecutionLines(stepCount: nat, tools: string, memory: seq<string>): seq<string> {
    ["Execution summary:", "  Steps: " + NatToString(stepCount), "  Tools: " + tools] + memory + [""]
  }

  function JudgeLines(judge: JudgeReport): seq<string> {
    ["Judge summary:", "  judge_model: " + (if judge.judgeModel.Some? then judge.judgeModel.value else "UNKNOWN_JUDGE_MODEL")]
    + ScoreLines(ScoreKeys, judge.scores) + [""]
  }

  function ThresholdSection(t: Thresholds, floatStr: real -> string): seq<string> {
    ["Thresholds:"] + ThresholdLines(t, floatStr) + [""]
  }

  /** All lines before the closing sections. */
  function LeadLines(run: EmailRun, judge: JudgeReport, t: Thresholds, status: string,
                     tools: string, stepCount: nat, memory: seq<string>, floatStr: real -> string): seq<string>
  {
    HeaderLines(run, status)
    + ContextLines(StrippedText(run.objective),
                   StrippedText(run.finalAnswer))
    + ExecutionLines(stepCount, tools, memory) + JudgeLines(judge) + ThresholdSection(t, floatStr)
  }

  lemma LeadSections(run: EmailRun, judge: JudgeReport, t: Thresholds, status: string,
                      tools: string, stepCount: nat, memory: seq<string>, floatStr: real -> string)
    ensures LeadLines(run, judge, t, status, tools, stepCount, memory, floatStr)
            == HeaderLines(run, status)
               + ContextLines(StrippedText(run.objective),
                              StrippedText(run.finalAnswer))
               + ExecutionLines(stepCount, tools, memory) + JudgeLines(judge) + ThresholdSection(t, floatStr)
  {
  }

  /** `build_gate_judge_email(...)`: the subject and the body's lines joined
      by newlines, or the error raised while rendering the memory ids. */
  function GateJudgeEmail(run: EmailRun, judge: JudgeReport, t: Thresholds, failReasons: seq<string>,
                          parse: string -> Option<Value>, floatStr: real -> string): Result<Email, string>
  {
    var steps := SafeJsonLoads(run.stepsJson, VList([]), parse);
    var memoryUsed := SafeJsonLoads(run.memoryUsedJson, VList([]), parse);
    var status := Status(failReasons);
    match MemoryLines(memoryUsed)
    case Err(e) => Err(e)
    case Ok(memory) =>
      var stepCount := if steps.VList? then |steps.items| else 0;
      var lines := LeadLines(run, judge, t, status, SummarizeTools(ExtractTools(steps), 6), stepCount, memory, floatStr)
                   + VerdictLines(failReasons) + ReproduceLines(run.runId, t, floatStr);
      Ok(Email(Subject(status, run.runId), Join("\n", lines)))
  }

  /** The lines of a built email. */
  function EmailLines(run: EmailRun, judge: JudgeReport, t: Thresholds, failReasons: seq<string>,
                      parse: string -> Option<Value>, floatStr: real -> string): seq<string>
    requires GateJudgeEmail(run, judge, t, failReasons, parse, floatStr).Ok?
  {
    var steps := SafeJsonLoads(run.stepsJson, VList([]), parse);
    var memoryUsed := SafeJsonLoads(run.memoryUsedJson, VList([]), parse);
    var stepCount := if steps.VList? then |steps.items| else 0;
    LeadLines(run, judge, t, Status(failReasons), SummarizeTools(ExtractTools(steps), 6), stepCount,
              MemoryLines(memoryUsed).value, floatStr)
    + VerdictLines(failReasons) + ReproduceLines(run.runId, t, floatStr)
  }

  /** The status is FAIL exactly when there are fail reasons; it heads both
      the subject and the body; the verdict section sits right before the
      four reproduce lines, and it is the passing line exactly when there are
      no reasons, one line per reason otherwise. */
  lemma {:induction false} EmailShape(run: EmailRun, judge: JudgeReport, t: Thresholds, failReasons: seq<string>,
                                      parse: string -> Option<Value>, floatStr: real -> string)
    requires GateJudgeEmail(run, judge, t, failReasons, parse, floatStr).Ok?
    ensures var e := GateJudgeEmail(run, judge, t, failReasons, parse, floatStr).value;
            var lines := EmailLines(run, judge, t, failReasons, parse, floatStr);
            var status := if failReasons != [] then "FAIL" else "PASS";
            var v := VerdictLines(failReasons);
            e.subject == "[autoops-ai] gate_judge " + status + " run_id=" + run.runId
            && e.body == Join("\n", lines)
            && lines[0] == "gate_judge " + status
            && |lines| >= |v| + 4
            && lines[|lines| - 4 - |v|..|lines| - 4] == v
            && (v[0] == "PASS: all thresholds met" <==> failReasons == [])
  {
    var lines := EmailLines(run, judge, t, failReasons, parse, floatStr);
    var steps := SafeJsonLoads(run.stepsJson, VList([]), parse);
    var memoryUsed := SafeJsonLoads(run.memoryUsedJson, VList([]), parse);
    var stepCount := if steps.VList? then |steps.items| else 0;
    var lead := LeadLines(run, judge, t, Status(failReasons), SummarizeTools(ExtractTools(steps), 6), stepCount,
                          MemoryLines(memoryUsed).value, floatStr);
    var v := VerdictLines(failReasons);
    var rep := ReproduceLines(run.runId, t, floatStr);
    assert lines == lead + v + rep;
    assert (lead + v + rep)[|lead|..|lead| + |v|] == v;
    assert lines[0] == lead[0];
  }

  // ---------------------------------------------------------------------------
  // build_gate_judge_email, section by section
  // ---------------------------------------------------------------------------

  lemma Associative(a: seq<string>, b: seq<string>, c: seq<string>)
    ensures a + b + c == a + (b + c)
  {
  }

  method AppendHeader(lines: seq<string>, run: EmailRun, status: string) returns (out: seq<string>)
    ensures out == lines + HeaderLines(run, status)
  {
    out := lines + ["gate_judge " + status];
    out := out + ["Run ID: " + run.runId];
    out := out + ["Created: " + run.created];
    out := out + ["Run OK: " + BoolText(run.ok) + " | Iterations: " + ToStr(run.iterations)];
    if run.totalTokens != VNone {
      out := out + ["Tokens: " + ToStr(run.totalTokens)];
    }
    out := out + ["Cost: $" + FormatFixed(run.totalCost, 4)];
    out := out + [""];
  }

  method AppendContext(lines: seq<string>, objective: string, answer: string) returns (out: seq<string>)
    ensures out == lines + ContextLines(objective, answer)
  {
    out := lines + ["Objective:"];
    out := out + [if objective != [] then Take(objective, 800) else "(empty)"];
    out := out + [""];
    if answer != [] {
      out := out + ["Final answer (preview):"];
      out := out + [Take(answer, 800)];
      out := out + [""];
    }
  }

  method AppendExecution(lines: seq<string>, stepCount: nat, tools: string, memory: seq<string>)
    returns (out: seq<string>)
    ensures out == lines + ExecutionLines(stepCount, tools, memory)
  {
    out := lines + ["Execution summary:"];
    out := out + ["  Steps: " + NatToString(stepCount)];
    out := out + ["  Tools: " + tools];
    out := out + memory;
    out := out + [""];
  }

  method AppendJudge(lines: seq<string>, judge: JudgeReport) returns (out: seq<string>)
    ensures out == lines + JudgeLines(judge)
  {
    out := lines + ["Judge summary:"];
    out := out + ["  judge_model: " + (if judge.judgeModel.Some? then judge.judgeModel.value else "UNKNOWN_JUDGE_MODEL")];
    var scoreLines: seq<string> := [];
    var i := 0;
    while i < |ScoreKeys|
      invariant 0 <= i <= |ScoreKeys|
      invariant scoreLines == ScoreLines(ScoreKeys[..i], judge.scores)
    {
      assert ScoreKeys[..i + 1][..i] == ScoreKeys[..i];
      var k := ScoreKeys[i];
      if k in judge.scores {
        scoreLines := scoreLines + ["  " + k + ": " + FormatFixed(judge.scores[k], 3)];
      }
      i := i + 1;
    }
    assert ScoreKeys[..i] == ScoreKeys;
    out := out + scoreLines;
    out := out + [""];
  }

  method AppendThresholds(lines: seq<string>, t: Thresholds, floatStr: real -> string) returns (out: seq<string>)
    ensures out == lines + ThresholdSection(t, floatStr)
  {
    out := lines + ["Thresholds:"];
    out := out + ["  min_overall: " + floatStr(t.minOverall)];
    out := out + ["  min_correctness: " + floatStr(t.minCorrectness)];
    out := out + ["  min_safety: " + floatStr(t.minSafety)];
    out := out + ["  max_cost: " + floatStr(t.maxCost)];
    out := out + [""];
  }

  method AppendVerdict(lines: seq<string>, failReasons: seq<string>) returns (out: seq<string>)
    ensures out == lines + VerdictLines(failReasons)
  {
    if failReasons != [] {
      out := lines + ["FAIL reasons:"];
      var j := 0;
      while j < |failReasons|
        invariant 0 <= j <= |failReasons|
        invariant out == lines + ["FAIL reasons:"] + ReasonLines(failReasons[..j])
      {
        assert failReasons[..j + 1][..j] == failReasons[..j];
        out := out + ["  - " + failReasons[j]];
        j := j + 1;
      }
      assert failReasons[..j] == failReasons;
      out := out + [""];
      Associative(lines, ["FAIL reasons:"], ReasonLines(failReasons));
      Associative(lines, ["FAIL reasons:"] + ReasonLines(failReasons), [""]);
    } else {
      out := lines + ["PASS: all thresholds met"];
      out := out + [""];
      Associative(lines, ["PASS: all thresholds met"], [""]);
    }
  }

  method AppendReproduce(lines: seq<string>, runId: string, t: Thresholds, floatStr: real -> string)
    returns (out: seq<string>)
    ensures out == lines + ReproduceLines(runId, t, floatStr)
  {
    out := lines + ["Reproduce:"];
    out := out + [RunsCommand("show", runId)];
    out := out + [RunsCommand("judge", runId)];
    out := out + [RunsCommand("gate_judge", runId) + Flag("min_overall", floatStr(t.minOverall))
                  + Flag("min_correctness", floatStr(t.minCorrectness)) + Flag("min_safety", floatStr(t.minSafety))
                  + Flag("max_cost", floatStr(t.maxCost))];
  }

  /** `build_gate_judge_email`: the body's lines are appended section by section. */
  method BuildGateJudgeEmail(run: EmailRun, judge: JudgeReport, t: Thresholds, failReasons: seq<string>,
                             parse: string -> Option<Value>, floatStr: real -> string)
    returns (r: Result<Email, string>)
    ensures r == GateJudgeEmail(run, judge, t, failReasons, parse, floatStr)
  {
    var objective := StrippedText(run.objective);
    var finalAnswer := StrippedText(run.finalAnswer);
    var steps := SafeJsonLoads(run.stepsJson, VList([]), parse);
    var memoryUsed := SafeJsonLoads(run.memoryUsedJson, VList([]), parse);
    var tools := ExtractToolsFromSteps(steps);
    var toolsSummary := SummarizeToolList(tools, 6);
    var status := if failReasons != [] then "FAIL" else "PASS";
    var subject := "[autoops-ai] gate_judge " + status + " run_id=" + run.runId;
    var stepCount := if steps.VList? then |steps.items| else 0;

    var memory := MemoryLines(memoryUsed);
    if memory.Err? {
      return Err(memory.error);
    }
    ghost var h := HeaderLines(run, status);
    ghost var c := ContextLines(objective, finalAnswer);
    ghost var x := ExecutionLines(stepCount, toolsSummary, memory.value);
    ghost var j := JudgeLines(judge);
    ghost var th := ThresholdSection(t, floatStr);
    LeadSections(run, judge, t, status, toolsSummary, stepCount, memory.value, floatStr);
    var lines := AppendHeader([], run, status);
    assert lines == h;
    lines := AppendContext(lines, objective, finalAnswer);
    assert lines == h + c;
    lines := AppendExecution(lines, stepCount, toolsSummary, memory.value);
    assert lines == h + c + x;
    lines := AppendJudge(lines, judge);
    assert lines == h + c + x + j;
    lines := AppendThresholds(lines, t, floatStr);
    assert lines == h + c + x + j + th;
    lines := AppendVerdict(lines, failReasons);
    lines := AppendReproduce(lines, run.runId, t, floatStr);
    r := Ok(Email(subject, Join("\n", lines)));
  }
}
