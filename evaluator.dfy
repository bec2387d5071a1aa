/** The heuristic run evaluator: four scores in [0, 1] and the reasons behind
    any penalty, computed from a stored run without a language model. Scores
    are exact reals. */
module Evaluator {
  import opened Wrappers
  import opened Strings
  import opened Similarity
  import opened Reals

  /** `clamp01(x)`. */
  function Clamp01(x: real): (r: real)
    ensures 0.0 <= r <= 1.0
    ensures 0.0 <= x <= 1.0 ==> r == x
    ensures x < 0.0 ==> r == 0.0
    ensures x > 1.0 ==> r == 1.0
  {
    if x < 0.0 then 0.0 else if x > 1.0 then 1.0 else x
  }

  /** The fields of a stored run that the evaluator reads; `objective`,
      `final_answer`, `iterations` and `total_cost` may be missing. */
  datatype RunInput = RunInput(
    runId: string, objective: Option<string>, finalAnswer: Option<string>,
    ok: bool, iterations: Option<int>, totalCost: Option<real>)

  /** The penalty reasons, one constructor per message. */
  datatype Reason =
    | LowOverlap
    | MissingAnswer
    | ShortAnswer
    | CostExceeded(totalCost: real, budget: real)
    | MultipleIterations

  /** The text each reason is reported with. */
  function Message(r: Reason): string {
    match r
    case LowOverlap => "Low objective/answer overlap (quality proxy)."
    case MissingAnswer => "Missing final_answer."
    case ShortAnswer => "final_answer is very short."
    case CostExceeded(c, b) => "Cost " + FormatFixed(c, 4) + " exceeds budget " + FormatFixed(b, 4) + "."
    case MultipleIterations => "Multiple iterations used (stability penalty)."
  }

  /** The report of `EvalReport(...).model_dump()`, with the reasons kept as
      values; `Message` renders each one. */
  datatype EvalReport = EvalReport(
    runId: string, qualityScore: real, structureScore: real,
    costScore: real, stabilityScore: real, reasons: seq<Reason>)

  /** The schema's `ge=0.0, le=1.0` on each score. */
  predicate ValidReport(r: EvalReport) {
    0.0 <= r.qualityScore <= 1.0 && 0.0 <= r.structureScore <= 1.0
    && 0.0 <= r.costScore <= 1.0 && 0.0 <= r.stabilityScore <= 1.0
  }

  /** `x or ""` and `x or 0` for the missing-or-falsy fields. */
  function TextOf(x: Option<string>): string {
    if x.Some? then x.value else ""
  }

  function IntOf(x: Option<int>): int {
    if x.Some? then x.value else 0
  }

  function RealOf(x: Option<real>): real {
    if x.Some? then x.value else 0.0
  }

  // ---------------------------------------------------------------------------
  // The four scores and their reasons
  // ---------------------------------------------------------------------------

  /** 0.0 for a blank answer, 0.4 for a short one, 1.0 otherwise. */
  function StructureScore(answer: string): (r: real)
    ensures r == 0.0 <==> IsBlank(answer)
    ensures r == 0.4 <==> !IsBlank(answer) && |Strip(answer)| < 20
    ensures r == 1.0 <==> |Strip(answer)| >= 20
  {
    StripBlank(answer);
    if Strip(answer) == [] then 0.0 else if |Strip(answer)| < 20 then 0.4 else 1.0
  }

  function CostScore(totalCost: real, budget: real): real {
    if budget <= 0.0 then 1.0 else Clamp01(1.0 - (Div(totalCost, budget) - 1.0) * 0.5)
  }

  function StabilityScore(ok: bool, iterations: int): real {
    if ok && iterations > 1 then Clamp01(1.0 - (iterations - 1) as real * 0.2)
    else if ok then 1.0 else 0.0
  }

  function QualityReasons(quality: real): seq<Reason> {
    if quality < 0.2 then [LowOverlap] else []
  }

  function StructureReasons(answer: string): seq<Reason> {
    if Strip(answer) == [] then [MissingAnswer]
    else if |Strip(answer)| < 20 then [ShortAnswer] else []
  }

  function CostReasons(totalCost: real, budget: real): seq<Reason> {
    if budget > 0.0 && totalCost > budget then [CostExceeded(totalCost, budget)] else []
  }

  function StabilityReasons(ok: bool, iterations: int): seq<Reason> {
    if ok && iterations > 1 then [MultipleIterations] else []
  }

  /** The reasons of a run, in the order quality, structure, cost, stability. */
  function Reasons(run: RunInput, budget: real): seq<Reason> {
    BlockReasons(Jaccard(TextOf(run.objective), TextOf(run.finalAnswer)), TextOf(run.finalAnswer),
                 RealOf(run.totalCost), budget, run.ok, IntOf(run.iterations))
  }

  /** The report `evaluate_run` returns; each score passes through `Clamp01`
      once more on its way into the report. The body stays folded in
      callers' proofs; `EvaluationUnfold` reveals it. */
  function Evaluation(run: RunInput, budget: real): EvalReport {
    EvaluationSteps(run, budget, Depth(run))
  }

  lemma EvaluationUnfold(run: RunInput, budget: real)
    ensures Evaluation(run, budget) == EvaluationSteps(run, budget, 0)
  {
    assert EvaluationSteps(run, budget, 3) == EvaluationSteps(run, budget, 0);
  }

  function EvaluationSteps(run: RunInput, budget: real, steps: nat): EvalReport
    decreases steps
  {
    if steps > 0 then EvaluationSteps(run, budget, steps - 1) else
    var answer := TextOf(run.finalAnswer);
    EvalReport(run.runId, Clamp01(Jaccard(TextOf(run.objective), answer)),
               Clamp01(StructureScore(answer)),
               Clamp01(CostScore(RealOf(run.totalCost), budget)),
               Clamp01(StabilityScore(run.ok, IntOf(run.iterations))), Reasons(run, budget))
  }

  /** Staying within a positive budget, or having no budget, scores full
      marks; three times the budget or more scores 0. */
  lemma CostScoreSpec(totalCost: real, budget: real)
    ensures 0.0 <= CostScore(totalCost, budget) <= 1.0
    ensures budget <= 0.0 || totalCost <= budget ==> CostScore(totalCost, budget) == 1.0
    ensures budget > 0.0 && totalCost >= 3.0 * budget ==> CostScore(totalCost, budget) == 0.0
  {
    if budget > 0.0 {
      var ratio := Div(totalCost, budget);
      DivValue(totalCost, budget);
      if totalCost <= budget {
        assert ratio <= 1.0;
      }
      if totalCost >= 3.0 * budget {
        assert ratio >= 3.0;
      }
    }
  }

  /** One penalty step of 0.2 per extra iteration, reaching 0 from the sixth. */
  lemma StabilityScoreSpec(ok: bool, iterations: int)
    ensures !ok ==> StabilityScore(ok, iterations) == 0.0
    ensures ok && iterations <= 1 ==> StabilityScore(ok, iterations) == 1.0
    ensures ok && 1 < iterations <= 6 ==>
              StabilityScore(ok, iterations) == 1.0 - (iterations - 1) as real * 0.2
    ensures ok && iterations >= 6 ==> StabilityScore(ok, iterations) == 0.0
  {
  }

  /** Every report meets the schema's ranges, and the final clamp changes no
      score: the report holds the four block scores as computed. */
  lemma EvaluationScores(run: RunInput, budget: real)
    ensures var e := Evaluation(run, budget);
            var answer := TextOf(run.finalAnswer);
            ValidReport(e)
            && e.qualityScore == Jaccard(TextOf(run.objective), answer)
            && e.structureScore == StructureScore(answer)
            && e.costScore == CostScore(RealOf(run.totalCost), budget)
            && e.stabilityScore == StabilityScore(run.ok, IntOf(run.iterations))
  {
    EvaluationUnfold(run, budget);
    JaccardRange(TextOf(run.objective), TextOf(run.finalAnswer));
    CostScoreSpec(RealOf(run.totalCost), budget);
  }

  /** The reasons of the four blocks, in order, given the block inputs. */
  function BlockReasons(quality: real, answer: string, totalCost: real, budget: real,
                        ok: bool, iterations: int): seq<Reason> {
    QualityReasons(quality) + StructureReasons(answer) + CostReasons(totalCost, budget)
    + StabilityReasons(ok, iterations)
  }

  /** `x in q + s + c + m` exactly when `x` is in one of the four. */
  lemma InConcat<T>(q: seq<T>, s: seq<T>, c: seq<T>, m: seq<T>, x: T)
    ensures x in q + s + c + m <==> x in q || x in s || x in c || x in m
  {
    assert x in q + s ==> x in q || x in s;
    assert x in q + s + c ==> x in q + s || x in c;
    assert x in q + s + c + m ==> x in q + s + c || x in m;
  }

  /** Each block contributes its reason exactly when its penalty applies. */
  lemma {:induction false} BlockReasonsSpec(quality: real, answer: string, totalCost: real, budget: real,
                                            ok: bool, iterations: int)
    ensures var r := BlockReasons(quality, answer, totalCost, budget, ok, iterations);
            |r| <= 4
            && (LowOverlap in r <==> quality < 0.2)
            && (MissingAnswer in r <==> StructureScore(answer) == 0.0)
            && (ShortAnswer in r <==> StructureScore(answer) == 0.4)
            && (CostExceeded(totalCost, budget) in r <==> budget > 0.0 && totalCost > budget)
            && (forall c, b :: CostExceeded(c, b) in r ==> c == totalCost && b == budget && b > 0.0 && c > b)
            && (MultipleIterations in r <==> ok && iterations > 1)
  {
    var q := QualityReasons(quality);
    var s := StructureReasons(answer);
    var c := CostReasons(totalCost, budget);
    var m := StabilityReasons(ok, iterations);
    InConcat(q, s, c, m, LowOverlap);
    InConcat(q, s, c, m, MissingAnswer);
    InConcat(q, s, c, m, ShortAnswer);
    InConcat(q, s, c, m, CostExceeded(totalCost, budget));
    InConcat(q, s, c, m, MultipleIterations);
    forall cc, b | CostExceeded(cc, b) in q + s + c + m
      ensures cc == totalCost && b == budget && b > 0.0 && cc > b
    {
      InConcat(q, s, c, m, CostExceeded(cc, b));
    }
  }

  /** Each reason is given exactly when its penalty applies: low overlap iff
      the quality is below 0.2, a missing or short answer iff the structure
      score is 0.0 or 0.4, the cost message iff a positive budget is exceeded
      (and then with this run's cost and budget), and the iteration penalty iff
      an ok run took more than one iteration. */
  lemma ReasonsSpec(run: RunInput, budget: real)
    ensures var r := Reasons(run, budget);
            var answer := TextOf(run.finalAnswer);
            |r| <= 4
            && (LowOverlap in r <==> Jaccard(TextOf(run.objective), answer) < 0.2)
            && (MissingAnswer in r <==> StructureScore(answer) == 0.0)
            && (ShortAnswer in r <==> StructureScore(answer) == 0.4)
            && (CostExceeded(RealOf(run.totalCost), budget) in r
                <==> budget > 0.0 && RealOf(run.totalCost) > budget)
            && (forall c, b :: CostExceeded(c, b) in r ==>
                  c == RealOf(run.totalCost) && b == budget && b > 0.0 && c > b)
            && (MultipleIterations in r <==> run.ok && IntOf(run.iterations) > 1)
  {
    BlockReasonsSpec(Jaccard(TextOf(run.objective), TextOf(run.finalAnswer)), TextOf(run.finalAnswer),
                     RealOf(run.totalCost), budget, run.ok, IntOf(run.iterations));
  }

  // ---------------------------------------------------------------------------
  // evaluate_run, block by block
  // ---------------------------------------------------------------------------

  /** The quality block: the Jaccard overlap of objective and answer. */
  method ScoreQuality(objective: string, finalAnswer: string) returns (quality: real, reasons: seq<Reason>)
    ensures quality == Jaccard(objective, finalAnswer) && 0.0 <= quality <= 1.0
    ensures reasons == QualityReasons(quality)
  {
    quality := Jaccard(objective, finalAnswer);
    JaccardRange(objective, finalAnswer);
    reasons := [];
    if quality < 0.2 {
      reasons := [LowOverlap];
    }
  }

  /** The structure block. */
  method ScoreStructure(finalAnswer: string) returns (structure: real, reasons: seq<Reason>)
    ensures structure == StructureScore(finalAnswer) && reasons == StructureReasons(finalAnswer)
  {
    structure := 1.0;
    reasons := [];
    if Strip(finalAnswer) == [] {
      structure := 0.0;
      reasons := [MissingAnswer];
    } else if |Strip(finalAnswer)| < 20 {
      structure := 0.4;
      reasons := [ShortAnswer];
    }
  }

  /** The cost block. */
  method ScoreCost(totalCost: real, budget: real) returns (costScore: real, reasons: seq<Reason>)
    ensures costScore == CostScore(totalCost, budget) && reasons == CostReasons(totalCost, budget)
  {
    reasons := [];
    if budget <= 0.0 {
      costScore := 1.0;
    } else {
      var ratio := Div(totalCost, budget);
      costScore := Clamp01(1.0 - (ratio - 1.0) * 0.5);
      if totalCost > budget {
        reasons := [CostExceeded(totalCost, budget)];
      }
    }
  }

  /** The stability block. */
  method ScoreStability(ok: bool, iterations: int) returns (stability: real, reasons: seq<Reason>)
    ensures stability == StabilityScore(ok, iterations) && reasons == StabilityReasons(ok, iterations)
  {
    reasons := [];
    stability := if ok then 1.0 else 0.0;
    if ok && iterations > 1 {
      stability := Clamp01(1.0 - (iterations - 1) as real * 0.2);
      reasons := [MultipleIterations];
    }
  }

  /** `evaluate_run(run, cost_budget=budget)`. */
  method EvaluateRun(run: RunInput, budget: real) returns (report: EvalReport)
    ensures report == Evaluation(run, budget)
  {
    var objective := TextOf(run.objective);
    var finalAnswer := TextOf(run.finalAnswer);
    var totalCost := RealOf(run.totalCost);
    EvaluationUnfold(run, budget);

    var quality, reasons := ScoreQuality(objective, finalAnswer);
    var structure, structureReasons := ScoreStructure(finalAnswer);
    var costScore, costReasons := ScoreCost(totalCost, budget);
    var stability, stabilityReasons := ScoreStability(run.ok, IntOf(run.iterations));
    reasons := reasons + structureReasons + costReasons + stabilityReasons;

    report := EvalReport(run.runId, Clamp01(quality), Clamp01(structure),
                         Clamp01(costScore), Clamp01(stability), reasons);
  }
}
