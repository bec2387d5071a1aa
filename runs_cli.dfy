/** The decision rules of the runs command line: the duplicate-subcommand
    check, the dry-run plan extraction, the judge gate with its notification
    choice, the regression gate's cost rule, and the command dispatch.

    Printing is not modelled except where a printed line is the command's
    verdict; storage reads are inputs. */
module RunsCli {
  import opened Wrappers
  import opened Strings
  import opened Values
  import opened Reals
  import opened TextTools
  import opened Notify
  import opened Evaluator

  // ---------------------------------------------------------------------------
  // assert_no_duplicate_subcommands
  // ---------------------------------------------------------------------------

  /** A registered subcommand and its aliases. */
  datatype Choice = Choice(name: string, aliases: seq<string>)

  function Names(choices: seq<Choice>): (r: seq<string>)
    ensures |r| == |choices|
    ensures forall i :: 0 <= i < |r| ==> r[i] == choices[i].name
  {
    seq(|choices|, i requires 0 <= i < |choices| => choices[i].name)
  }

  /** One alias together with the subcommand that declares it. */
  datatype Claim = Claim(owner: string, alias: string)

  function ClaimsOf(name: string, aliases: seq<string>): (r: seq<Claim>)
    ensures |r| == |aliases|
    ensures forall i :: 0 <= i < |r| ==> r[i] == Claim(name, aliases[i])
    decreases |aliases|
  {
    if aliases == [] then [] else [Claim(name, aliases[0])] + ClaimsOf(name, aliases[1..])
  }

  /** Every alias in declaration order. */
  function Claims(choices: seq<Choice>): seq<Claim>
    decreases |choices|
  {
    if choices == [] then [] else ClaimsOf(choices[0].name, choices[0].aliases) + Claims(choices[1..])
  }

  /** The alias scan after the names: the first alias already in `seen`
      stops it. */
  function CheckClaims(claims: seq<Claim>, seen: set<string>): Result<(), string>
    decreases |claims|
  {
    if claims == [] then Ok(())
    else if claims[0].alias in seen then
      Err("Alias collision: '" + claims[0].alias + "' already registered (while adding '" + claims[0].owner + "')")
    else CheckClaims(claims[1..], seen + {claims[0].alias})
  }

  /** `assert_no_duplicate_subcommands`: `Err` carries the `SystemExit` text. */
  function SubcommandCheck(choices: seq<Choice>): Result<(), string> {
    var names := Names(choices);
    if !Distinct(names) then
      Err("Duplicate subcommand names detected: " + Repr(VList(seq(|names|, i requires 0 <= i < |names| => VStr(names[i])))))
    else CheckClaims(Claims(choices), set n | n in names)
  }

  /** The alias scan passes exactly when no alias is in `seen` and no alias
      repeats an earlier one. */
  lemma {:induction false} CheckClaimsSpec(claims: seq<Claim>, seen: set<string>)
    ensures CheckClaims(claims, seen).Ok? <==>
              (forall i :: 0 <= i < |claims| ==> claims[i].alias !in seen)
              && (forall i, j :: 0 <= i < j < |claims| ==> claims[i].alias != claims[j].alias)
    decreases |claims|
  {
    if claims != [] {
      var rest := claims[1..];
      CheckClaimsSpec(rest, seen + {claims[0].alias});
      assert forall i :: 0 <= i < |rest| ==> rest[i] == claims[i + 1];
      if CheckClaims(claims, seen).Ok? {
        assert claims[0].alias !in seen;
        forall i, j | 0 <= i < j < |claims| ensures claims[i].alias != claims[j].alias {
          if i > 0 {
            assert claims[i].alias == rest[i - 1].alias && claims[j].alias == rest[j - 1].alias;
          } else {
            assert claims[j].alias == rest[j - 1].alias;
          }
        }
      } else if claims[0].alias !in seen {
        assert !CheckClaims(rest, seen + {claims[0].alias}).Ok?;
        if exists i :: 0 <= i < |rest| && rest[i].alias in seen + {claims[0].alias} {
          var i :| 0 <= i < |rest| && rest[i].alias in seen + {claims[0].alias};
          assert claims[i + 1] == rest[i];
        } else {
          var i, j :| 0 <= i < j < |rest| && rest[i].alias == rest[j].alias;
          assert claims[i + 1] == rest[i] && claims[j + 1] == rest[j];
        }
      }
    }
  }

  /** The check passes exactly when the names are distinct, no alias is a
      subcommand name, and no alias repeats an earlier alias. */
  lemma SubcommandCheckSpec(choices: seq<Choice>)
    ensures SubcommandCheck(choices).Ok? <==>
              Distinct(Names(choices))
              && (forall i :: 0 <= i < |Claims(choices)| ==> Claims(choices)[i].alias !in Names(choices))
              && (forall i, j :: 0 <= i < j < |Claims(choices)| ==> Claims(choices)[i].alias != Claims(choices)[j].alias)
  {
    var names := Names(choices);
    var seen := set n | n in names;
    CheckClaimsSpec(Claims(choices), seen);
    assert forall x :: x in seen <==> x in names;
    if Distinct(names) {
      assert SubcommandCheck(choices) == CheckClaims(Claims(choices), seen);
    }
  }

  /** The inner loop over one subcommand's aliases: either the collision it
      stops at, or the grown `seen` set the scan continues with. */
  method AddAliases(name: string, aliases: seq<string>, seen0: set<string>, ghost tail: seq<Claim>)
    returns (r: Result<set<string>, string>)
    ensures r.Err? ==> CheckClaims(ClaimsOf(name, aliases) + tail, seen0) == Err(r.error)
    ensures r.Ok? ==> CheckClaims(ClaimsOf(name, aliases) + tail, seen0) == CheckClaims(tail, r.value)
  {
    var seen := seen0;
    var j := 0;
    while j < |aliases|
      invariant 0 <= j <= |aliases|
      invariant CheckClaims(ClaimsOf(name, aliases[j..]) + tail, seen) == CheckClaims(ClaimsOf(name, aliases) + tail, seen0)
    {
      ghost var rest := ClaimsOf(name, aliases[j + 1..]) + tail;
      assert aliases[j..][1..] == aliases[j + 1..];
      assert ClaimsOf(name, aliases[j..]) + tail == [Claim(name, aliases[j])] + rest;
      assert ([Claim(name, aliases[j])] + rest)[1..] == rest;
      if aliases[j] in seen {
        return Err("Alias collision: '" + aliases[j] + "' already registered (while adding '" + name + "')");
      }
      seen := seen + {aliases[j]};
      j := j + 1;
    }
    assert ClaimsOf(name, aliases[j..]) + tail == tail;
    r := Ok(seen);
  }

  /** `assert_no_duplicate_subcommands`, with its `seen` set grown alias by alias. */
  method AssertNoDuplicateSubcommands(choices: seq<Choice>) returns (r: Result<(), string>)
    ensures r == SubcommandCheck(choices)
  {
    var names := Names(choices);
    if !Distinct(names) {
      return Err("Duplicate subcommand names detected: " + Repr(VList(seq(|names|, i requires 0 <= i < |names| => VStr(names[i])))));
    }
    var seen := set n | n in names;
    var i := 0;
    while i < |choices|
      invariant 0 <= i <= |choices|
      invariant CheckClaims(Claims(choices[i..]), seen) == SubcommandCheck(choices)
    {
      assert choices[i..][1..] == choices[i + 1..];
      assert Claims(choices[i..]) == ClaimsOf(choices[i].name, choices[i].aliases) + Claims(choices[i + 1..]);
      var added := AddAliases(choices[i].name, choices[i].aliases, seen, Claims(choices[i + 1..]));
      if added.Err? {
        return Err(added.error);
      }
      seen := added.value;
      i := i + 1;
    }
    r := Ok(());
  }

  /** The subcommands `build_parser` registers, none with aliases. */
  const ParserCommands: seq<string> :=
    ["list", "show", "compare", "eval", "compare_eval", "gate", "judge", "compare_judge",
     "gate_judge", "replay", "export", "memory_search"]

  function ParserChoices(): (r: seq<Choice>)
    ensures |r| == |ParserCommands|
    ensures forall i :: 0 <= i < |r| ==> r[i] == Choice(ParserCommands[i], [])
  {
    seq(|ParserCommands|, i requires 0 <= i < |ParserCommands| => Choice(ParserCommands[i], []))
  }

  lemma {:induction false} NoClaims(choices: seq<Choice>)
    requires forall i :: 0 <= i < |choices| ==> choices[i].aliases == []
    ensures Claims(choices) == []
    decreases |choices|
  {
    if choices != [] {
      NoClaims(choices[1..]);
    }
  }

  /** A number telling the names of the parser apart: length and first letter. */
  function Shape(s: string): int {
    if s == [] then 0 else |s| * 0x1_0000 + s[0] as int
  }

  /** Names with pairwise different shapes are distinct. */
  lemma DistinctByShape(xs: seq<string>)
    requires forall i, j :: 0 <= i < j < |xs| ==> Shape(xs[i]) != Shape(xs[j])
    ensures Distinct(xs)
  {
  }

  /** The parser as built passes its own check. */
  lemma ParserPassesCheck()
    ensures SubcommandCheck(ParserChoices()).Ok?
  {
    var cs := ParserChoices();
    NoClaims(cs);
    ParserNamesDistinct();
    assert CheckClaims(Claims(cs), set n | n in Names(cs)) == Ok(());
  }

  /** The command names have pairwise different shapes. */
  lemma CommandShapes()
    ensures forall i, j :: 0 <= i < j < |ParserCommands| ==> Shape(ParserCommands[i]) != Shape(ParserCommands[j])
  {
    var shapes := [0x4006c, 0x40073, 0x70063, 0x40065, 0xc0063, 0x40067, 0x5006a, 0xd0063, 0xa0067, 0x60072, 0x60065, 0xd006d];
    assert forall i :: 0 <= i < |ParserCommands| ==> Shape(ParserCommands[i]) == shapes[i];
  }

  lemma ParserNamesDistinct()
    ensures Distinct(Names(ParserChoices()))
  {
    var names := Names(ParserChoices());
    assert names == ParserCommands;
    CommandShapes();
    DistinctByShape(names);
  }

  // ---------------------------------------------------------------------------
  // _extract_dry_run_plan_from_run
  // ---------------------------------------------------------------------------

  /** The plan-like dict of a dry run, one field per key it can hold. */
  datatype DryRunPlan = DryRunPlan(objective: Value, steps: seq<Value>, source: string, finalAnswerPreview: Option<Value>)

  /** The plan as the dict it is printed as, keys in insertion order. */
  function PlanDict(p: DryRunPlan): Dict {
    [Entry("objective", p.objective), Entry("steps", VList(p.steps)), Entry("source", VStr(p.source))]
    + (if p.finalAnswerPreview.Some? then [Entry("final_answer_preview", p.finalAnswerPreview.value)] else [])
  }

  /** `x or default`. */
  function OrElse(v: Value, default: Value): Value {
    if Truthy(v) then v else default
  }

  predicate IsPlanEvent(e: Dict) {
    GetOrNone(e, "event") in {VStr("agent_plan_created"), VStr("plan_created")}
  }

  /** `[e for e in events if e.get("event") in (...)]`; an event that is not a
      dict has no `get`. */
  function PlanEvents(events: seq<Value>): (r: Result<seq<Dict>, string>)
    ensures r.Ok? ==> forall i :: 0 <= i < |r.value| ==> IsPlanEvent(r.value[i])
    ensures r.Ok? <==> forall i :: 0 <= i < |events| ==> events[i].VDict?
    decreases |events|
  {
    if events == [] then Ok([])
    else if !events[0].VDict? then
      Err("AttributeError: '" + TypeName(events[0]) + "' object has no attribute 'get'")
    else
      match PlanEvents(events[1..])
      case Err(e) => Err(e)
      case Ok(rest) => Ok((if IsPlanEvent(events[0].entries) then [events[0].entries] else []) + rest)
  }

  /** The steps of the last recorded plan event, when it holds a list. */
  function RecordedSteps(plans: seq<Dict>): Option<seq<Value>> {
    if plans != [] && GetOrNone(plans[|plans| - 1], "steps").VList? then
      Some(GetOrNone(plans[|plans| - 1], "steps").items)
    else None
  }

  /** `x[:300]` of the final answer; only strings and lists can be sliced here. */
  function Preview(answer: Value): Result<Value, string> {
    match answer
    case VStr(s) => Ok(VStr(Take(s, 300)))
    case VList(items) => Ok(VList(Take(items, 300)))
    case _ => Err("TypeError: " + TypeName(answer) + " cannot be sliced")
  }

  /** The plan the dry run surfaces, in the priority the code gives its
      sources. */
  function DryRunPlanOf(run: Dict): Result<DryRunPlan, string> {
    var objective := OrElse(GetOrNone(run, "objective"), VStr(""));
    var events := GetOrNone(run, "events");
    var recorded: Result<Option<seq<Value>>, string> :=
      if !events.VList? then Ok(None)
      else match PlanEvents(events.items)
        case Err(e) => Err(e)
        case Ok(plans) => Ok(RecordedSteps(plans));
    match recorded
    case Err(e) => Err(e)
    case Ok(rec) =>
      var p0 := DryRunPlan(objective, [], "best_effort", None);
      var p1 := if rec.Some? then p0.(steps := rec.value, source := "recorded_events") else p0;
      var runSteps := GetOrNone(run, "steps");
      var p2 := if p1.steps == [] && runSteps.VList? then p1.(steps := runSteps.items, source := "run_steps") else p1;
      if p2.steps != [] then Ok(p2)
      else
        var answer := OrElse(GetOrNone(run, "final_answer"), VStr(""));
        if !Truthy(answer) then Ok(p2)
        else match Preview(answer)
          case Err(e) => Err(e)
          case Ok(v) => Ok(p2.(finalAnswerPreview := Some(v)))
  }

  /** The surfaced steps come from the last plan event when it has a
      non-empty list of steps, else from the run's own list when it has one;
      the source names which, and stays `best_effort` when neither exists. A
      preview appears only when no steps were surfaced, and it holds at most
      300 items of the answer, from its start. */
  lemma DryRunPlanSpec(run: Dict, plans: seq<Dict>)
    requires GetOrNone(run, "events").VList? ==> PlanEvents(GetOrNone(run, "events").items) == Ok(plans)
    requires !GetOrNone(run, "events").VList? ==> plans == []
    requires DryRunPlanOf(run).Ok?
    ensures var p := DryRunPlanOf(run).value;
            var rec := RecordedSteps(plans);
            var runSteps := GetOrNone(run, "steps");
            (p.source == "recorded_events" <==> rec.Some? && (rec.value != [] || !runSteps.VList?))
            && (p.source == "run_steps" <==> runSteps.VList? && (rec.None? || rec.value == []))
            && (p.source == "best_effort" <==> rec.None? && !runSteps.VList?)
            && (rec.Some? && rec.value != [] ==> p.steps == rec.value)
            && ((rec.None? || rec.value == []) && runSteps.VList? ==> p.steps == runSteps.items)
            && (p.finalAnswerPreview.Some? ==> p.steps == [])
            && (p.finalAnswerPreview.Some? ==>
                  match p.finalAnswerPreview.value
                  case VStr(s) => |s| <= 300 && GetOrNone(run, "final_answer").VStr? && s <= GetOrNone(run, "final_answer").s
                  case VList(xs) => |xs| <= 300 && xs <= GetOrNone(run, "final_answer").items
                  case _ => false)
  {
    var answer := OrElse(GetOrNone(run, "final_answer"), VStr(""));
    var p := DryRunPlanOf(run).value;
    if p.finalAnswerPreview.Some? {
      assert Truthy(answer);
      assert answer == GetOrNone(run, "final_answer");
      match answer
      case VStr(s) =>
        assert p.finalAnswerPreview.value == VStr(Take(s, 300));
      case VList(items) =>
      case _ =>
    }
  }

  /** `_extract_dry_run_plan_from_run`: the plan record is updated in place as
      each source is tried. */
  method ExtractDryRunPlan(run: Dict) returns (r: Result<DryRunPlan, string>)
    ensures r == DryRunPlanOf(run)
  {
    var objective := OrElse(GetOrNone(run, "objective"), VStr(""));
    var plan := DryRunPlan(objective, [], "best_effort", None);
    var events := GetOrNone(run, "events");
    if events.VList? {
      var plans := PlanEvents(events.items);
      if plans.Err? {
        return Err(plans.error);
      }
      if plans.value != [] {
        var last := plans.value[|plans.value| - 1];
        if GetOrNone(last, "steps").VList? {
          plan := plan.(steps := GetOrNone(last, "steps").items, source := "recorded_events");
        }
      }
    }
    var steps := GetOrNone(run, "steps");
    if plan.steps == [] && steps.VList? {
      plan := plan.(steps := steps.items, source := "run_steps");
    }
    if plan.steps == [] {
      var finalAnswer := OrElse(GetOrNone(run, "final_answer"), VStr(""));
      if Truthy(finalAnswer) {
        var preview := Preview(finalAnswer);
        if preview.Err? {
          return Err(preview.error);
        }
        plan := plan.(finalAnswerPreview := Some(preview.value));
      }
    }
    r := Ok(plan);
  }

  // ---------------------------------------------------------------------------
  // cmd_gate_judge
  // ---------------------------------------------------------------------------

  datatype NotifyOn = OnFail | OnPass | OnAlways

  /** The options of `gate_judge`. */
  datatype GateJudgeArgs = GateJudgeArgs(
    minOverall: real, minCorrectness: real, minSafety: real, maxCost: real,
    minScore: Option<real>, autoJudge: bool, notifyEmail: string, notifyOn: NotifyOn, notifyDryRun: bool)

  /** The thresholds in force: `--min_score`, when given, replaces `--min_overall`. */
  function ThresholdsOf(args: GateJudgeArgs): (t: Thresholds)
    ensures args.minScore.Some? ==> t.minOverall == args.minScore.value
    ensures args.minScore.None? ==> t.minOverall == args.minOverall
    ensures t.minCorrectness == args.minCorrectness && t.minSafety == args.minSafety && t.maxCost == args.maxCost
  {
    Thresholds(if args.minScore.Some? then args.minScore.value else args.minOverall,
               args.minCorrectness, args.minSafety, args.maxCost)
  }

  /** `report.get(key, 0.0)`. */
  function ScoreOf(report: JudgeReport, key: string): real {
    if key in report.scores then report.scores[key] else 0.0
  }

  /** The four checks of the gate. */
  datatype Check = OverallCheck | CorrectnessCheck | SafetyCheck | CostCheck

  /** The checks in the order they are made. */
  const AllChecks: seq<Check> := [OverallCheck, CorrectnessCheck, SafetyCheck, CostCheck]

  predicate Violated(c: Check, report: JudgeReport, t: Thresholds, cost: real) {
    match c
    case OverallCheck => ScoreOf(report, "overall") < t.minOverall
    case CorrectnessCheck => ScoreOf(report, "correctness") < t.minCorrectness
    case SafetyCheck => ScoreOf(report, "safety") < t.minSafety
    case CostCheck => cost > t.maxCost
  }

  function ScoreKey(c: Check): string {
    match c
    case OverallCheck => "overall"
    case CorrectnessCheck => "correctness"
    case SafetyCheck => "safety"
    case CostCheck => "cost"
  }

  /** The reason text of a violated check, showing the score that failed. */
  function ReasonText(c: Check, shown: real, t: Thresholds, cost: real): string {
    match c
    case OverallCheck => "overall " + FormatFixed(shown, 3) + " < " + FormatFixed(t.minOverall, 3)
    case CorrectnessCheck => "correctness " + FormatFixed(shown, 3) + " < " + FormatFixed(t.minCorrectness, 3)
    case SafetyCheck => "safety " + FormatFixed(shown, 3) + " < " + FormatFixed(t.minSafety, 3)
    case CostCheck => "cost $" + FormatFixed(cost, 4) + " > $" + FormatFixed(t.maxCost, 4)
  }

  /** The reason of a violated check as the gate means it, reading the
      score with its default: `report.get(key, 0.0)`. */
  function ReasonOf(c: Check, report: JudgeReport, t: Thresholds, cost: real): string {
    ReasonText(c, ScoreOf(report, ScoreKey(c)), t, cost)
  }

  /** The violated checks among `cs`, in order. */
  function ViolationsIn(cs: seq<Check>, report: JudgeReport, t: Thresholds, cost: real): (r: seq<Check>)
    ensures |r| <= |cs|
    decreases |cs|
  {
    if cs == [] then []
    else
      var c := cs[|cs| - 1];
      ViolationsIn(cs[..|cs| - 1], report, t, cost) + (if Violated(c, report, t, cost) then [c] else [])
  }

  /** The reasons of the violated checks among `cs`, in order. */
  function ReasonsIn(cs: seq<Check>, report: JudgeReport, t: Thresholds, cost: real): seq<string>
    decreases |cs|
  {
    if cs == [] then []
    else
      var c := cs[|cs| - 1];
      ReasonsIn(cs[..|cs| - 1], report, t, cost) + (if Violated(c, report, t, cost) then [ReasonOf(c, report, t, cost)] else [])
  }

  function Violations(report: JudgeReport, t: Thresholds, cost: real): seq<Check> {
    ViolationsIn(AllChecks, report, t, cost)
  }

  /** The fail reasons of the gate. */
  function FailReasons(report: JudgeReport, t: Thresholds, cost: real): seq<string> {
    ReasonsIn(AllChecks, report, t, cost)
  }

  /** The violated checks are exactly the checks of `cs` that fail, each once
      when `cs` lists each once. */
  lemma {:induction false} ViolationsInSpec(cs: seq<Check>, report: JudgeReport, t: Thresholds, cost: real)
    ensures forall c :: c in ViolationsIn(cs, report, t, cost) <==> c in cs && Violated(c, report, t, cost)
    ensures (forall i, j :: 0 <= i < j < |cs| ==> cs[i] != cs[j]) ==>
              forall i, j :: 0 <= i < j < |ViolationsIn(cs, report, t, cost)| ==>
                ViolationsIn(cs, report, t, cost)[i] != ViolationsIn(cs, report, t, cost)[j]
    decreases |cs|
  {
    if cs != [] {
      var init := cs[..|cs| - 1];
      var c := cs[|cs| - 1];
      ViolationsInSpec(init, report, t, cost);
      assert cs == init + [c];
      var v := ViolationsIn(init, report, t, cost);
      if forall i, j :: 0 <= i < j < |cs| ==> cs[i] != cs[j] {
        assert forall i, j :: 0 <= i < j < |init| ==> init[i] != init[j] by {
          forall i, j | 0 <= i < j < |init| ensures init[i] != init[j] {
            assert init[i] == cs[i] && init[j] == cs[j];
          }
        }
        forall k | 0 <= k < |init| ensures init[k] != c {
          assert init[k] == cs[k];
        }
        assert c !in v;
      }
    }
  }

  /** One reason per violated check, in the order of the checks. */
  lemma {:induction false} ReasonsInSpec(cs: seq<Check>, report: JudgeReport, t: Thresholds, cost: real)
    ensures |ReasonsIn(cs, report, t, cost)| == |ViolationsIn(cs, report, t, cost)|
    ensures forall i :: 0 <= i < |ReasonsIn(cs, report, t, cost)| ==>
              ReasonsIn(cs, report, t, cost)[i] == ReasonOf(ViolationsIn(cs, report, t, cost)[i], report, t, cost)
    decreases |cs|
  {
    if cs != [] {
      ReasonsInSpec(cs[..|cs| - 1], report, t, cost);
    }
  }

  /** `AllChecks` lists every check, each once. */
  lemma AllChecksListed()
    ensures forall c: Check :: c in AllChecks
    ensures forall i, j :: 0 <= i < j < |AllChecks| ==> AllChecks[i] != AllChecks[j]
  {
    forall c: Check ensures c in AllChecks {
      match c
      case OverallCheck => assert AllChecks[0] == c;
      case CorrectnessCheck => assert AllChecks[1] == c;
      case SafetyCheck => assert AllChecks[2] == c;
      case CostCheck => assert AllChecks[3] == c;
    }
  }

  /** The gate's reasons: one per failed check, in the order of the checks,
      each naming its check; there are none exactly when every check passes. */
  lemma FailReasonsSpec(report: JudgeReport, t: Thresholds, cost: real)
    ensures forall c :: c in Violations(report, t, cost) <==> Violated(c, report, t, cost)
    ensures forall i, j :: 0 <= i < j < |Violations(report, t, cost)| ==>
              Violations(report, t, cost)[i] != Violations(report, t, cost)[j]
    ensures |FailReasons(report, t, cost)| == |Violations(report, t, cost)|
    ensures forall i :: 0 <= i < |FailReasons(report, t, cost)| ==>
              FailReasons(report, t, cost)[i] == ReasonOf(Violations(report, t, cost)[i], report, t, cost)
    ensures FailReasons(report, t, cost) == [] <==>
              forall c :: !Violated(c, report, t, cost)
  {
    var vs := Violations(report, t, cost);
    AllChecksListed();
    ViolationsInSpec(AllChecks, report, t, cost);
    ReasonsInSpec(AllChecks, report, t, cost);
    if vs != [] {
      assert vs[0] in vs;
    }
  }

  /** One step of the reason list: a violated check adds its reason. */
  function AddReason(acc: seq<string>, c: Check, report: JudgeReport, t: Thresholds, cost: real): seq<string> {
    if Violated(c, report, t, cost) then acc + [ReasonOf(c, report, t, cost)] else acc
  }

  lemma AllChecksPrefixes()
    ensures AllChecks[..3] == [OverallCheck, CorrectnessCheck, SafetyCheck]
    ensures AllChecks[..3][..2] == [OverallCheck, CorrectnessCheck]
    ensures AllChecks[..3][..2][..1] == [OverallCheck]
    ensures AllChecks[..3][..2][..1][..0] == []
  {
  }

  /** The reasons are the four steps in the order of the source. */
  lemma FailReasonsSteps(report: JudgeReport, t: Thresholds, cost: real)
    ensures FailReasons(report, t, cost)
              == AddReason(AddReason(AddReason(AddReason([], OverallCheck, report, t, cost),
                                               CorrectnessCheck, report, t, cost),
                                     SafetyCheck, report, t, cost),
                           CostCheck, report, t, cost)
  {
    AllChecksPrefixes();
    var p3 := AllChecks[..3];
    var p2 := p3[..2];
    var p1 := p2[..1];
    assert ReasonsIn(p1[..0], report, t, cost) == [];
    assert ReasonsIn(p1, report, t, cost) == AddReason([], OverallCheck, report, t, cost);
    assert ReasonsIn(p2, report, t, cost) == AddReason(ReasonsIn(p1, report, t, cost), CorrectnessCheck, report, t, cost);
    assert ReasonsIn(p3, report, t, cost) == AddReason(ReasonsIn(p2, report, t, cost), SafetyCheck, report, t, cost);
    assert ReasonsIn(AllChecks, report, t, cost) == AddReason(ReasonsIn(p3, report, t, cost), CostCheck, report, t, cost);
  }

  /** The same step as written: the comparison reads `report.get(key, 0.0)`
      but the message reads `report[key]`, which raises `KeyError` for a
      missing score. */
  function AddReasonAsWritten(acc: Result<seq<string>, string>, c: Check, report: JudgeReport, t: Thresholds, cost: real)
    : Result<seq<string>, string>
  {
    if acc.Err? || !Violated(c, report, t, cost) then acc
    else if c != CostCheck && ScoreKey(c) !in report.scores then Err("KeyError: '" + ScoreKey(c) + "'")
    else Ok(acc.value + [ReasonText(c, if c == CostCheck then cost else report.scores[ScoreKey(c)], t, cost)])
  }

  function FailReasonsAsWritten(report: JudgeReport, t: Thresholds, cost: real): Result<seq<string>, string> {
    var r1 := AddReasonAsWritten(Ok([]), OverallCheck, report, t, cost);
    var r2 := AddReasonAsWritten(r1, CorrectnessCheck, report, t, cost);
    var r3 := AddReasonAsWritten(r2, SafetyCheck, report, t, cost);
    AddReasonAsWritten(r3, CostCheck, report, t, cost)
  }

  /** A report without scores, under the default thresholds: the gate means
      to fail it on the three score thresholds, with a reason for each, but
      the first message raises instead. */
  lemma MissingScoreCrashes()
    ensures var report := JudgeReport(map[], Some("gpt-4o-mini"), {});
            var t := Thresholds(0.80, 0.85, 0.95, 0.05);
            FailReasonsAsWritten(report, t, 0.0) == Err("KeyError: 'overall'")
            && (forall c :: c in Violations(report, t, 0.0) <==> c != CostCheck)
            && |FailReasons(report, t, 0.0)| == |Violations(report, t, 0.0)|
  {
    var report := JudgeReport(map[], Some("gpt-4o-mini"), {});
    var t := Thresholds(0.80, 0.85, 0.95, 0.05);
    assert Violated(OverallCheck, report, t, 0.0) && ScoreKey(OverallCheck) !in report.scores;
    assert "KeyError: '" + ScoreKey(OverallCheck) + "'" == "KeyError: 'overall'";
    FailReasonsSpec(report, t, 0.0);
  }

  /** One step as written: an earlier error is kept; otherwise the step
      raises exactly when its check is violated and reads a missing score,
      and else adds what the intended step adds. */
  lemma AddReasonAsWrittenStep(acc: Result<seq<string>, string>, c: Check, report: JudgeReport, t: Thresholds, cost: real)
    ensures acc.Err? ==> AddReasonAsWritten(acc, c, report, t, cost) == acc
    ensures acc.Ok? ==>
      var r := AddReasonAsWritten(acc, c, report, t, cost);
      (r.Err? <==> MissingRead(c, report, t, cost))
      && (r.Err? ==> r.error == "KeyError: '" + ScoreKey(c) + "'")
      && (r.Ok? ==> r.value == AddReason(acc.value, c, report, t, cost))
  {
  }

  /** The check is violated and the message reads a score the report lacks. */
  predicate MissingRead(c: Check, report: JudgeReport, t: Thresholds, cost: real) {
    c != CostCheck && Violated(c, report, t, cost) && ScoreKey(c) !in report.scores
  }

  /** The reasons as written raise exactly when some violated score check
      reads a missing score, with the `KeyError` of the first such check;
      otherwise they are the intended reasons. */
  lemma FailReasonsAsWrittenSpec(report: JudgeReport, t: Thresholds, cost: real)
    ensures FailReasonsAsWritten(report, t, cost).Ok? <==> forall c :: !MissingRead(c, report, t, cost)
    ensures FailReasonsAsWritten(report, t, cost).Ok? ==>
              FailReasonsAsWritten(report, t, cost).value == FailReasons(report, t, cost)
    ensures FailReasonsAsWritten(report, t, cost).Err? ==>
              exists c :: MissingRead(c, report, t, cost)
                && FailReasonsAsWritten(report, t, cost).error == "KeyError: '" + ScoreKey(c) + "'"
  {
    FailReasonsSteps(report, t, cost);
    var r1 := AddReasonAsWritten(Ok([]), OverallCheck, report, t, cost);
    var r2 := AddReasonAsWritten(r1, CorrectnessCheck, report, t, cost);
    var r3 := AddReasonAsWritten(r2, SafetyCheck, report, t, cost);
    AddReasonAsWrittenStep(Ok([]), OverallCheck, report, t, cost);
    AddReasonAsWrittenStep(r1, CorrectnessCheck, report, t, cost);
    AddReasonAsWrittenStep(r2, SafetyCheck, report, t, cost);
    AddReasonAsWrittenStep(r3, CostCheck, report, t, cost);
    assert !MissingRead(CostCheck, report, t, cost);
    forall c | MissingRead(c, report, t, cost)
      ensures FailReasonsAsWritten(report, t, cost).Err?
    {
      match c
      case OverallCheck =>
      case CorrectnessCheck =>
      case SafetyCheck =>
    }
  }

  /** With every score present the two versions agree. */
  lemma AsWrittenAgreesWhenScored(report: JudgeReport, t: Thresholds, cost: real)
    requires "overall" in report.scores && "correctness" in report.scores && "safety" in report.scores
    ensures FailReasonsAsWritten(report, t, cost) == Ok(FailReasons(report, t, cost))
  {
    FailReasonsAsWrittenSpec(report, t, cost);
  }

  /** The fail reasons, appended check by check; a message that reads a
      missing score raises `KeyError`. */
  method CollectFailReasons(report: JudgeReport, t: Thresholds, cost: real) returns (r: Result<seq<string>, string>)
    ensures r == FailReasonsAsWritten(report, t, cost)
  {
    var failReasons := [];
    if ScoreOf(report, "overall") < t.minOverall {
      if "overall" !in report.scores {
        assert "KeyError: '" + ScoreKey(OverallCheck) + "'" == "KeyError: 'overall'";
        return Err("KeyError: 'overall'");
      }
      failReasons := failReasons + [ReasonText(OverallCheck, report.scores["overall"], t, cost)];
    }
    if ScoreOf(report, "correctness") < t.minCorrectness {
      if "correctness" !in report.scores {
        assert "KeyError: '" + ScoreKey(CorrectnessCheck) + "'" == "KeyError: 'correctness'";
        return Err("KeyError: 'correctness'");
      }
      failReasons := failReasons + [ReasonText(CorrectnessCheck, report.scores["correctness"], t, cost)];
    }
    if ScoreOf(report, "safety") < t.minSafety {
      if "safety" !in report.scores {
        assert "KeyError: '" + ScoreKey(SafetyCheck) + "'" == "KeyError: 'safety'";
        return Err("KeyError: 'safety'");
      }
      failReasons := failReasons + [ReasonText(SafetyCheck, report.scores["safety"], t, cost)];
    }
    if cost > t.maxCost {
      failReasons := failReasons + [ReasonText(CostCheck, cost, t, cost)];
    }
    return Ok(failReasons);
  }

  /** `[e.strip() for e in (notify_email or "").split(",") if e.strip()]`. */
  function NotifyEmails(s: string): seq<string> {
    StrippedNonBlank(Split(s, ','))
  }

  /** Every recipient is non-blank, stripped and free of commas; an empty
      option gives no recipients. */
  lemma NotifyEmailsSpec(s: string)
    ensures forall i :: 0 <= i < |NotifyEmails(s)| ==>
              NotifyEmails(s)[i] != [] && IsStripped(NotifyEmails(s)[i]) && ',' !in NotifyEmails(s)[i]
    ensures s == "" ==> NotifyEmails(s) == []
  {
    SplitPiecesHaveNoSeparator(s, ',');
    StrippedNonBlankAvoids(Split(s, ','), ',');
    if s == "" {
      assert Split(s, ',') == [""];
      assert Strip("") == [];
      assert Split(s, ',')[1..] == [];
    }
  }

  /** Whether to notify: some recipient, and the mode matches the verdict. */
  predicate ShouldNotify(emails: seq<string>, mode: NotifyOn, failed: bool) {
    emails != [] && (mode == OnAlways || (mode == OnFail && failed) || (mode == OnPass && !failed))
  }

  /** What happens to the notification. */
  datatype Notification =
    | NotNotified
    | Printed(to: seq<string>, email: Email)
    | Sent(to: seq<string>, email: Email)
    | SkippedNoSmtp

  /** What `gate_judge` ends with: its exit code, its verdict line, and, past
      the lookups, the reasons and the notification. */
  datatype GateJudgeOutcome = GateJudgeOutcome(exitCode: int, message: string, failReasons: seq<string>, notification: Notification)

  /** A judge report is falsy when it is an empty dict. */
  predicate EmptyReport(r: JudgeReport) {
    r.scores == map[] && r.judgeModel.None? && r.otherKeys == {}
  }

  /** The report the gate reads: the stored one, else the judge's when
      `--auto_judge` is set; `Err` is the message of an exit with code 2. */
  function ReportOf(stored: Option<JudgeReport>, judged: Result<JudgeReport, string>, autoJudge: bool)
    : Result<JudgeReport, string>
  {
    if stored.Some? && !EmptyReport(stored.value) then Ok(stored.value)
    else if !autoJudge then Err("Missing judge report. Run judge on this run_id first.")
    else if judged.Err? then Err("ERROR: auto_judge failed: " + judged.error)
    else Ok(judged.value)
  }

  /** The notification step; `Err` is a failure building the email, which
      the command does not catch. A failure to send is caught and ignored. */
  function NotificationOf(run: EmailRun, report: JudgeReport, t: Thresholds, reasons: seq<string>,
                          args: GateJudgeArgs, smtpConfigured: bool,
                          parse: string -> Option<Value>, floatStr: real -> string): Result<Notification, string>
  {
    var emails := NotifyEmails(args.notifyEmail);
    if !ShouldNotify(emails, args.notifyOn, reasons != []) then Ok(NotNotified)
    else match GateJudgeEmail(run, report, t, reasons, parse, floatStr)
      case Err(e) => Err(e)
      case Ok(email) =>
        Ok(if args.notifyDryRun then Printed(emails, email)
           else if smtpConfigured then Sent(emails, email) else SkippedNoSmtp)
  }

  /** `cmd_gate_judge`: `run` and `stored` are the storage lookups, `judged`
      the outcome of running the judge, `smtpConfigured` whether the SMTP
      settings are present. `Err` is an exception that escapes the command. */
  function GateJudge(run: Option<EmailRun>, stored: Option<JudgeReport>, judged: Result<JudgeReport, string>,
                     args: GateJudgeArgs, smtpConfigured: bool,
                     parse: string -> Option<Value>, floatStr: real -> string): Result<GateJudgeOutcome, string>
  {
    if run.None? then Ok(GateJudgeOutcome(2, "Run not found", [], NotNotified))
    else match ReportOf(stored, judged, args.autoJudge)
      case Err(m) => Ok(GateJudgeOutcome(2, m, [], NotNotified))
      case Ok(report) =>
        var t := ThresholdsOf(args);
        match FailReasonsAsWritten(report, t, run.value.totalCost)
        case Err(e) => Err(e)
        case Ok(reasons) =>
          match NotificationOf(run.value, report, t, reasons, args, smtpConfigured, parse, floatStr)
          case Err(e) => Err(e)
          case Ok(n) =>
            if reasons != [] then Ok(GateJudgeOutcome(1, "FAIL: gate_judge failed", reasons, n))
            else Ok(GateJudgeOutcome(0, "PASS: gate_judge ok", [], n))
  }

  /** When the command returns, past the lookups the gate fails (exit 1)
      exactly when some threshold is violated, its reasons are the intended
      `FailReasons` (one per violated threshold), and it passes (exit 0)
      otherwise; the notification goes out exactly when `ShouldNotify` holds,
      and never changes the exit code. Without a usable report the exit
      code is 2. */
  lemma GateJudgeSpec(run: Option<EmailRun>, stored: Option<JudgeReport>, judged: Result<JudgeReport, string>,
                      args: GateJudgeArgs, smtpConfigured: bool,
                      parse: string -> Option<Value>, floatStr: real -> string)
    requires GateJudge(run, stored, judged, args, smtpConfigured, parse, floatStr).Ok?
    ensures var o := GateJudge(run, stored, judged, args, smtpConfigured, parse, floatStr).value;
            (o.exitCode == 2 <==> run.None? || ReportOf(stored, judged, args.autoJudge).Err?)
            && (o.exitCode != 2 ==>
                  var report := ReportOf(stored, judged, args.autoJudge).value;
                  var t := ThresholdsOf(args);
                  var vs := Violations(report, t, run.value.totalCost);
                  (o.exitCode == 1 <==> vs != [])
                  && (o.exitCode == 0 <==> vs == [])
                  && |o.failReasons| == |vs|
                  && o.failReasons == FailReasons(report, t, run.value.totalCost)
                  && (o.notification.NotNotified? <==> !ShouldNotify(NotifyEmails(args.notifyEmail), args.notifyOn, vs != [])))
  {
    if run.Some? && ReportOf(stored, judged, args.autoJudge).Ok? {
      FailReasonsSpec(ReportOf(stored, judged, args.autoJudge).value, ThresholdsOf(args), run.value.totalCost);
      FailReasonsAsWrittenSpec(ReportOf(stored, judged, args.autoJudge).value, ThresholdsOf(args), run.value.totalCost);
    }
  }

  /** Past the lookups, a report that lacks a score whose check fails makes
      the command raise `KeyError` for that score, before any notification. */
  lemma GateJudgeKeyError(run: Option<EmailRun>, stored: Option<JudgeReport>, judged: Result<JudgeReport, string>,
                          args: GateJudgeArgs, smtpConfigured: bool,
                          parse: string -> Option<Value>, floatStr: real -> string)
    requires run.Some? && ReportOf(stored, judged, args.autoJudge).Ok?
    requires exists c :: MissingRead(c, ReportOf(stored, judged, args.autoJudge).value, ThresholdsOf(args), run.value.totalCost)
    ensures var r := GateJudge(run, stored, judged, args, smtpConfigured, parse, floatStr);
            r.Err? && exists c :: MissingRead(c, ReportOf(stored, judged, args.autoJudge).value, ThresholdsOf(args), run.value.totalCost)
                                 && r.error == "KeyError: '" + ScoreKey(c) + "'"
  {
    FailReasonsAsWrittenSpec(ReportOf(stored, judged, args.autoJudge).value, ThresholdsOf(args), run.value.totalCost);
  }

  /** A stored report holding no scores and no model but some other entry
      is truthy, so it is used; under a positive overall threshold the
      command then raises `KeyError: 'overall'`. */
  lemma ScorelessStoredReportRaises(run: Option<EmailRun>, judged: Result<JudgeReport, string>,
                                    args: GateJudgeArgs, smtpConfigured: bool,
                                    parse: string -> Option<Value>, floatStr: real -> string)
    requires run.Some? && ThresholdsOf(args).minOverall > 0.0
    ensures GateJudge(run, Some(JudgeReport(map[], None, {"reasons"})), judged, args, smtpConfigured, parse, floatStr)
              == Err("KeyError: 'overall'")
  {
    var report := JudgeReport(map[], None, {"reasons"});
    assert !EmptyReport(report) by { assert "reasons" in report.otherKeys; }
    assert ReportOf(Some(report), judged, args.autoJudge) == Ok(report);
    assert "KeyError: '" + ScoreKey(OverallCheck) + "'" == "KeyError: 'overall'";
  }

  /** The notification step of `cmd_gate_judge`. */
  method NotifyStep(run: EmailRun, report: JudgeReport, t: Thresholds, failReasons: seq<string>,
                args: GateJudgeArgs, smtpConfigured: bool,
                parse: string -> Option<Value>, floatStr: real -> string) returns (r: Result<Notification, string>)
    ensures r == NotificationOf(run, report, t, failReasons, args, smtpConfigured, parse, floatStr)
  {
    var failed := failReasons != [];
    var emails := NotifyEmails(args.notifyEmail);
    r := Ok(NotNotified);
    if emails != [] {
      var notify := args.notifyOn == OnAlways || (args.notifyOn == OnFail && failed) || (args.notifyOn == OnPass && !failed);
      if notify {
        var email := BuildGateJudgeEmail(run, report, t, failReasons, parse, floatStr);
        if email.Err? {
          return Err(email.error);
        }
        if args.notifyDryRun {
          r := Ok(Printed(emails, email.value));
        } else if smtpConfigured {
          r := Ok(Sent(emails, email.value));
        } else {
          r := Ok(SkippedNoSmtp);
        }
      }
    }
  }

  /** `cmd_gate_judge`. */
  method CmdGateJudge(run: Option<EmailRun>, stored: Option<JudgeReport>, judged: Result<JudgeReport, string>,
                      args: GateJudgeArgs, smtpConfigured: bool,
                      parse: string -> Option<Value>, floatStr: real -> string)
    returns (r: Result<GateJudgeOutcome, string>)
    ensures r == GateJudge(run, stored, judged, args, smtpConfigured, parse, floatStr)
  {
    if run.None? {
      return Ok(GateJudgeOutcome(2, "Run not found", [], NotNotified));
    }
    var report: JudgeReport;
    if stored.None? || EmptyReport(stored.value) {
      if !args.autoJudge {
        return Ok(GateJudgeOutcome(2, "Missing judge report. Run judge on this run_id first.", [], NotNotified));
      }
      if judged.Err? {
        return Ok(GateJudgeOutcome(2, "ERROR: auto_judge failed: " + judged.error, [], NotNotified));
      }
      report := judged.value;
    } else {
      report := stored.value;
    }
    var minOverall := args.minOverall;
    if args.minScore.Some? {
      minOverall := args.minScore.value;
    }
    var t := Thresholds(minOverall, args.minCorrectness, args.minSafety, args.maxCost);
    var reasons := CollectFailReasons(report, t, run.value.totalCost);
    if reasons.Err? {
      return Err(reasons.error);
    }
    var failReasons := reasons.value;
    var notification := NotifyStep(run.value, report, t, failReasons, args, smtpConfigured, parse, floatStr);
    if notification.Err? {
      return Err(notification.error);
    }
    if failReasons != [] {
      return Ok(GateJudgeOutcome(1, "FAIL: gate_judge failed", failReasons, notification.value));
    }
    r := Ok(GateJudgeOutcome(0, "PASS: gate_judge ok", [], notification.value));
  }

  // ---------------------------------------------------------------------------
  // cmd_gate
  // ---------------------------------------------------------------------------

  /** The cost increase in percent: relative to a positive old cost, 999 when
      only the new run costs anything, 0 when neither does. */
  function CostIncreasePct(oldCost: real, newCost: real): real {
    if oldCost > 0.0 then Div(newCost - oldCost, oldCost) * 100.0
    else if newCost > 0.0 then 999.0
    else 0.0
  }

  lemma CostIncreasePctSpec(oldCost: real, newCost: real)
    ensures oldCost > 0.0 ==> CostIncreasePct(oldCost, newCost) * oldCost == (newCost - oldCost) * 100.0
    ensures oldCost > 0.0 ==> (CostIncreasePct(oldCost, newCost) > 0.0 <==> newCost > oldCost)
    ensures oldCost > 0.0 && newCost == oldCost ==> CostIncreasePct(oldCost, newCost) == 0.0
    ensures oldCost <= 0.0 && newCost > 0.0 ==> CostIncreasePct(oldCost, newCost) == 999.0
    ensures oldCost <= 0.0 && newCost <= 0.0 ==> CostIncreasePct(oldCost, newCost) == 0.0
  {
    if oldCost > 0.0 {
      DivValue(newCost - oldCost, oldCost);
      var q := Div(newCost - oldCost, oldCost);
      assert q * oldCost == newCost - oldCost;
      assert (q * 100.0) * oldCost == (q * oldCost) * 100.0;
      if q > 0.0 {
        assert q * oldCost > 0.0;
      } else {
        assert q * oldCost <= 0.0;
      }
    }
  }

  /** The options of `gate`. */
  datatype GateArgs = GateArgs(maxQualityDrop: real, maxCostIncreasePct: real)

  datatype GateOutcome = GateOutcome(exitCode: int, lines: seq<string>)

  /** `load_eval(id) or evaluate_run(run)`: a stored report wins unless absent. */
  function EvalOf(stored: Option<EvalReport>, run: RunInput): EvalReport {
    if stored.Some? then stored.value else Evaluation(run, 0.05)
  }

  /** The failure and pass lines of the regression gate. */
  function QualityDropLine(qualityDrop: real, maxDrop: real): string {
    "FAIL: quality dropped by " + FormatFixed(qualityDrop, 3) + " (> " + FormatFixed(maxDrop, 3) + ")"
  }

  function CostIncreaseLine(pct: real, maxPct: real): string {
    "FAIL: cost increased by " + FormatFixed(pct, 1) + "% (> " + FormatFixed(maxPct, 1) + "%)"
  }

  const RegressedLine := "FAIL: run regressed from OK to FAIL"
  const PassLine := "PASS: no regression detected"

  /** The verdict of the regression gate from its three measurements: the
      failure lines in the order the checks are made, or the pass line. */
  function GateDecision(qualityDrop: real, pct: real, okRegressed: bool, args: GateArgs): GateOutcome {
    var lines :=
      (if qualityDrop > args.maxQualityDrop then [QualityDropLine(qualityDrop, args.maxQualityDrop)] else [])
      + (if pct > args.maxCostIncreasePct then [CostIncreaseLine(pct, args.maxCostIncreasePct)] else [])
      + (if okRegressed then [RegressedLine] else []);
    if lines != [] then GateOutcome(1, lines) else GateOutcome(0, [PassLine])
  }

  /** The gate fails exactly when quality drops by more than allowed, the
      cost rises by more than allowed, or the run regressed from ok to
      failing, with one line per failed check; the regression alone is
      enough, and it is reported last. */
  lemma GateDecisionSpec(qualityDrop: real, pct: real, okRegressed: bool, args: GateArgs)
    ensures var g := GateDecision(qualityDrop, pct, okRegressed, args);
            (g.exitCode == 1 <==> qualityDrop > args.maxQualityDrop || pct > args.maxCostIncreasePct || okRegressed)
            && (g.exitCode == 0 <==> g.exitCode != 1)
            && (g.exitCode == 1 ==>
                  |g.lines| == (if qualityDrop > args.maxQualityDrop then 1 else 0)
                               + (if pct > args.maxCostIncreasePct then 1 else 0) + (if okRegressed then 1 else 0))
            && (okRegressed ==> g.lines[|g.lines| - 1] == RegressedLine)
  {
  }

  /** `cmd_gate` on the two runs' lookups. */
  function Gate(oldRun: Option<RunInput>, newRun: Option<RunInput>,
                oldStored: Option<EvalReport>, newStored: Option<EvalReport>, args: GateArgs): GateOutcome
  {
    if oldRun.None? || newRun.None? then GateOutcome(2, ["Run not found"])
    else
      GateDecision(EvalOf(oldStored, oldRun.value).qualityScore - EvalOf(newStored, newRun.value).qualityScore,
                   CostIncreasePct(RealOf(oldRun.value.totalCost), RealOf(newRun.value.totalCost)),
                   oldRun.value.ok && !newRun.value.ok, args)
  }

  /** The three checks of `cmd_gate`, raising `failed` one at a time. */
  method GateChecks(qualityDrop: real, pct: real, okRegressed: bool, args: GateArgs) returns (g: GateOutcome)
    ensures g == GateDecision(qualityDrop, pct, okRegressed, args)
  {
    var failed := false;
    var lines: seq<string> := [];
    if qualityDrop > args.maxQualityDrop {
      lines := lines + [QualityDropLine(qualityDrop, args.maxQualityDrop)];
      failed := true;
    }
    if pct > args.maxCostIncreasePct {
      lines := lines + [CostIncreaseLine(pct, args.maxCostIncreasePct)];
      failed := true;
    }
    if okRegressed {
      lines := lines + [RegressedLine];
      failed := true;
    }
    if failed {
      return GateOutcome(1, lines);
    }
    g := GateOutcome(0, [PassLine]);
  }

  /** `load_eval(id) or evaluate_run(run)`. */
  method LoadOrEvaluate(stored: Option<EvalReport>, run: RunInput) returns (e: EvalReport)
    ensures e == EvalOf(stored, run)
  {
    if stored.Some? {
      e := stored.value;
    } else {
      e := EvaluateRun(run, 0.05);
    }
  }

  /** The cost increase of `cmd_gate`. */
  method CostIncrease(oldCost: real, newCost: real) returns (pct: real)
    ensures pct == CostIncreasePct(oldCost, newCost)
  {
    if oldCost > 0.0 {
      pct := Div(newCost - oldCost, oldCost) * 100.0;
    } else if newCost > 0.0 {
      pct := 999.0;
    } else {
      pct := 0.0;
    }
  }

  /** `cmd_gate`. */
  method CmdGate(oldRun: Option<RunInput>, newRun: Option<RunInput>,
                 oldStored: Option<EvalReport>, newStored: Option<EvalReport>, args: GateArgs)
    returns (g: GateOutcome)
    ensures g == Gate(oldRun, newRun, oldStored, newStored, args)
  {
    if oldRun.None? || newRun.None? {
      return GateOutcome(2, ["Run not found"]);
    }
    var oldEval := LoadOrEvaluate(oldStored, oldRun.value);
    var newEval := LoadOrEvaluate(newStored, newRun.value);
    var qualityDrop := oldEval.qualityScore - newEval.qualityScore;
    var oldCost := RealOf(oldRun.value.totalCost);
    var newCost := RealOf(newRun.value.totalCost);
    var pct := CostIncrease(oldCost, newCost);
    var okRegressed := oldRun.value.ok && !newRun.value.ok;
    GateOfMeasures(oldRun, newRun, oldStored, newStored, args, qualityDrop, pct);
    g := GateChecks(qualityDrop, pct, okRegressed, args);
  }

  /** With both runs found, the gate decides on the quality drop and the cost
      increase of their reports. */
  lemma GateOfMeasures(oldRun: Option<RunInput>, newRun: Option<RunInput>,
                       oldStored: Option<EvalReport>, newStored: Option<EvalReport>, args: GateArgs,
                       qualityDrop: real, pct: real)
    requires oldRun.Some? && newRun.Some?
    requires qualityDrop == EvalOf(oldStored, oldRun.value).qualityScore - EvalOf(newStored, newRun.value).qualityScore
    requires pct == CostIncreasePct(RealOf(oldRun.value.totalCost), RealOf(newRun.value.totalCost))
    ensures Gate(oldRun, newRun, oldStored, newStored, args)
            == GateDecision(qualityDrop, pct, oldRun.value.ok && !newRun.value.ok, args)
  {
  }

  // ---------------------------------------------------------------------------
  // dispatch
  // ---------------------------------------------------------------------------

  /** The handler `dispatch` picks, or the fall-through. */
  datatype Dispatched = Handler(name: string) | Unknown(message: string, exitCode: int)

  const DispatchOrder: seq<string> :=
    ["list", "show", "replay", "compare", "judge", "compare_judge", "gate_judge", "eval",
     "compare_eval", "memory_search", "gate", "export"]

  function Dispatch(cmd: string): Dispatched {
    if cmd in DispatchOrder then Handler(cmd) else Unknown("Unknown command: " + cmd, 2)
  }

  /** Every subcommand the parser accepts reaches its own handler, so the
      fall-through is only reached by a name the parser would reject; it then
      reports the name and exits with 2. */
  lemma DispatchSpec(cmd: string)
    ensures cmd in ParserCommands <==> Dispatch(cmd).Handler?
    ensures Dispatch(cmd).Handler? ==> Dispatch(cmd).name == cmd
    ensures Dispatch(cmd).Unknown? ==> Dispatch(cmd).exitCode == 2 && Dispatch(cmd).message == "Unknown command: " + cmd
  {
    assert forall c :: c in ParserCommands <==> c in DispatchOrder;
  }
}
