/** Memory retrieval: score the most recent stored runs against the objective,
    keep the `k` best in a stable descending order, and render them as prompt
    lines.

    The run store is a sequence of rows, most recent first, which is what
    `list_runs` reads (`ORDER BY created_ts DESC`). `load_run` is a separate
    lookup table, since a listed run need not load. */
module Memory {
  import opened Wrappers
  import opened Strings
  import opened Similarity

  /** A row of `list_runs`. */
  datatype RunRow = RunRow(runId: string, objective: Option<string>)

  /** A row of `load_run`. */
  datatype StoredRun = StoredRun(objective: Option<string>, ok: bool, iterations: Option<int>, finalAnswer: Option<string>)

  /** One retrieved memory. */
  datatype MemoryRecord = MemoryRecord(
    runId: string, similarity: real, objective: Option<string>, ok: bool,
    iterations: Option<int>, finalAnswer: Option<string>)

  /** `x or ""` for an optional string. */
  function OrEmpty(x: Option<string>): string {
    if x.Some? then x.value else ""
  }

  /** `list_runs(limit)`: the first `limit` rows; SQLite reads a negative limit
      as no limit. */
  function ListRuns(store: seq<RunRow>, limit: int): (rows: seq<RunRow>)
    ensures rows <= store
    ensures limit < 0 ==> rows == store
    ensures limit >= 0 ==> |rows| == if limit < |store| then limit else |store|
  {
    if limit < 0 || limit >= |store| then store else store[..limit]
  }

  datatype Scored = Scored(score: real, runId: string)

  function ScoreRow(objective: string, r: RunRow): Scored {
    Scored(Jaccard(objective, OrEmpty(r.objective)), r.runId)
  }

  // ---------------------------------------------------------------------------
  // The stable descending sort (`scored.sort(reverse=True, key=score)`)
  // ---------------------------------------------------------------------------

  predicate SortedDesc(xs: seq<Scored>) {
    forall i, j :: 0 <= i < j < |xs| ==> xs[i].score >= xs[j].score
  }

  /** Inserts `x` in front of the first element whose score is not higher. */
  function Insert(x: Scored, ys: seq<Scored>): seq<Scored>
    decreases |ys|
  {
    if ys == [] then [x]
    else if ys[0].score > x.score then [ys[0]] + Insert(x, ys[1..])
    else [x] + ys
  }

  function SortDesc(xs: seq<Scored>): seq<Scored>
    decreases |xs|
  {
    if xs == [] then [] else Insert(xs[0], SortDesc(xs[1..]))
  }

  /** The elements with score `v`, in order. */
  function WithScore(xs: seq<Scored>, v: real): seq<Scored>
    decreases |xs|
  {
    if xs == [] then []
    else (if xs[0].score == v then [xs[0]] else []) + WithScore(xs[1..], v)
  }

  lemma {:induction false} InsertBounded(x: Scored, ys: seq<Scored>, b: real)
    requires x.score <= b && forall i :: 0 <= i < |ys| ==> ys[i].score <= b
    ensures forall i :: 0 <= i < |Insert(x, ys)| ==> Insert(x, ys)[i].score <= b
    decreases |ys|
  {
    if ys != [] && ys[0].score > x.score {
      InsertBounded(x, ys[1..], b);
    }
  }

  lemma {:induction false} InsertSorted(x: Scored, ys: seq<Scored>)
    requires SortedDesc(ys)
    ensures SortedDesc(Insert(x, ys))
    decreases |ys|
  {
    if ys != [] && ys[0].score > x.score {
      var tail := ys[1..];
      InsertSorted(x, tail);
      InsertBounded(x, tail, ys[0].score);
      var r := Insert(x, tail);
      var out := [ys[0]] + r;
      forall i, j | 0 <= i < j < |out| ensures out[i].score >= out[j].score {
        assert out[j] == r[j - 1];
        if i > 0 {
          assert out[i] == r[i - 1];
        }
      }
    } else if ys != [] {
      var out := [x] + ys;
      forall i, j | 0 <= i < j < |out| ensures out[i].score >= out[j].score {
        assert out[j] == ys[j - 1];
        if i > 0 {
          assert out[i] == ys[i - 1];
        }
      }
    }
  }

  lemma {:induction false} InsertPermutes(x: Scored, ys: seq<Scored>)
    ensures multiset(Insert(x, ys)) == multiset(ys) + multiset{x}
    decreases |ys|
  {
    if ys != [] && ys[0].score > x.score {
      var tail := ys[1..];
      InsertPermutes(x, tail);
      assert ys == [ys[0]] + tail;
    }
  }

  lemma {:induction false} InsertStable(x: Scored, ys: seq<Scored>, v: real)
    ensures WithScore(Insert(x, ys), v) == (if x.score == v then [x] else []) + WithScore(ys, v)
    decreases |ys|
  {
    if ys != [] && ys[0].score > x.score {
      var tail := ys[1..];
      InsertStable(x, tail, v);
      var r := Insert(x, tail);
      assert ([ys[0]] + r)[1..] == r;
      assert WithScore([ys[0]] + r, v) == (if ys[0].score == v then [ys[0]] else []) + WithScore(r, v);
      assert WithScore(ys, v) == (if ys[0].score == v then [ys[0]] else []) + WithScore(tail, v);
    } else if ys != [] {
      assert ([x] + ys)[1..] == ys;
    }
  }

  lemma {:induction false} SortDescSorted(xs: seq<Scored>)
    ensures SortedDesc(SortDesc(xs))
    decreases |xs|
  {
    if xs != [] {
      SortDescSorted(xs[1..]);
      InsertSorted(xs[0], SortDesc(xs[1..]));
    }
  }

  lemma {:induction false} SortDescPermutes(xs: seq<Scored>)
    ensures multiset(SortDesc(xs)) == multiset(xs)
    decreases |xs|
  {
    if xs != [] {
      var t := SortDesc(xs[1..]);
      SortDescPermutes(xs[1..]);
      InsertPermutes(xs[0], t);
      assert SortDesc(xs) == Insert(xs[0], t);
      assert xs == [xs[0]] + xs[1..];
      assert multiset(xs) == multiset{xs[0]} + multiset(xs[1..]);
    }
  }

  lemma {:induction false} SortDescStable(xs: seq<Scored>, v: real)
    ensures WithScore(SortDesc(xs), v) == WithScore(xs, v)
    decreases |xs|
  {
    if xs != [] {
      SortDescStable(xs[1..], v);
      InsertStable(xs[0], SortDesc(xs[1..]), v);
    }
  }

  /** The sort orders by non-increasing score, is a permutation, and is stable:
      the elements of any one score keep their original order. */
  lemma SortDescSpec(xs: seq<Scored>, v: real)
    ensures SortedDesc(SortDesc(xs))
    ensures multiset(SortDesc(xs)) == multiset(xs)
    ensures WithScore(SortDesc(xs), v) == WithScore(xs, v)
  {
    SortDescSorted(xs);
    SortDescPermutes(xs);
    SortDescStable(xs, v);
  }

  // ---------------------------------------------------------------------------
  // find_relevant_runs
  // ---------------------------------------------------------------------------

  function RecordOf(s: Scored, run: StoredRun): MemoryRecord {
    MemoryRecord(s.runId, s.score, run.objective, run.ok, run.iterations, run.finalAnswer)
  }

  /** The loaded memories of the chosen candidates, in order, skipping any that
      do not load. */
  function Collect(top: seq<Scored>, loaded: map<string, StoredRun>): (r: seq<MemoryRecord>)
    ensures |r| <= |top|
    decreases |top|
  {
    if top == [] then []
    else
      var init := Collect(top[..|top| - 1], loaded);
      var last := top[|top| - 1];
      if last.runId in loaded then init + [RecordOf(last, loaded[last.runId])] else init
  }

  /** The score of each listed row, in list order. */
  function Scores(objective: string, rows: seq<RunRow>): (r: seq<Scored>)
    ensures |r| == |rows|
    decreases |rows|
  {
    if rows == [] then []
    else Scores(objective, rows[..|rows| - 1]) + [ScoreRow(objective, rows[|rows| - 1])]
  }

  /** The candidates kept: `scored[:k]` of the sorted scores. */
  function TopCandidates(objective: string, k: int, scanLimit: int, store: seq<RunRow>): seq<Scored> {
    Take(SortDesc(Scores(objective, ListRuns(store, scanLimit))), k)
  }

  /** The scoring loop over the listed candidates. */
  method ScoreCandidates(objective: string, candidates: seq<RunRow>) returns (scored: seq<Scored>)
    ensures scored == Scores(objective, candidates)
  {
    scored := [];
    var i := 0;
    while i < |candidates|
      invariant 0 <= i <= |candidates|
      invariant scored == Scores(objective, candidates[..i])
    {
      assert candidates[..i + 1][..i] == candidates[..i];
      scored := scored + [ScoreRow(objective, candidates[i])];
      i := i + 1;
    }
    assert candidates[..i] == candidates;
  }

  /** The loading loop over the kept candidates. */
  method CollectLoaded(top: seq<Scored>, loaded: map<string, StoredRun>) returns (results: seq<MemoryRecord>)
    ensures results == Collect(top, loaded)
  {
    results := [];
    var j := 0;
    while j < |top|
      invariant 0 <= j <= |top|
      invariant results == Collect(top[..j], loaded)
    {
      var s := top[j];
      assert top[..j + 1][..j] == top[..j];
      assert top[..j + 1][j] == s;
      if s.runId in loaded {
        results := results + [RecordOf(s, loaded[s.runId])];
      }
      j := j + 1;
    }
    assert top[..j] == top;
  }

  /** `find_relevant_runs(objective, k=k, scan_limit=scan_limit)`. */
  method FindRelevantRuns(objective: string, k: int, scanLimit: int, store: seq<RunRow>,
                          loaded: map<string, StoredRun>)
    returns (results: seq<MemoryRecord>)
    ensures results == Collect(TopCandidates(objective, k, scanLimit, store), loaded)
  {
    var candidates := ListRuns(store, scanLimit);
    var scored := ScoreCandidates(objective, candidates);
    var top := Take(SortDesc(scored), k);
    results := CollectLoaded(top, loaded);
  }

  /** Each memory is the record of a candidate that loaded: its id, its score
      and what `load_run` returned for it. */
  lemma {:induction false} CollectProvenance(top: seq<Scored>, loaded: map<string, StoredRun>)
    ensures forall i :: 0 <= i < |Collect(top, loaded)| ==>
              var m := Collect(top, loaded)[i];
              m.runId in loaded && m == RecordOf(Scored(m.similarity, m.runId), loaded[m.runId])
    decreases |top|
  {
    if top != [] {
      CollectProvenance(top[..|top| - 1], loaded);
    }
  }

  /** Nothing is skipped exactly when every candidate loads. */
  lemma {:induction false} CollectCount(top: seq<Scored>, loaded: map<string, StoredRun>)
    ensures |Collect(top, loaded)| == |top| <==> forall j :: 0 <= j < |top| ==> top[j].runId in loaded
    decreases |top|
  {
    if top != [] {
      var init := top[..|top| - 1];
      CollectCount(init, loaded);
      assert forall j :: 0 <= j < |init| ==> init[j] == top[j];
    }
  }

  lemma {:induction false} CollectBounds(top: seq<Scored>, loaded: map<string, StoredRun>, lo: real, hi: real)
    requires forall j :: 0 <= j < |top| ==> lo <= top[j].score <= hi
    ensures forall i :: 0 <= i < |Collect(top, loaded)| ==> lo <= Collect(top, loaded)[i].similarity <= hi
    decreases |top|
  {
    if top != [] {
      var init := top[..|top| - 1];
      assert forall j :: 0 <= j < |init| ==> init[j] == top[j];
      CollectBounds(init, loaded, lo, hi);
    }
  }

  /** Sorted candidates give memories in non-increasing similarity order. */
  lemma {:induction false} CollectSorted(top: seq<Scored>, loaded: map<string, StoredRun>)
    requires SortedDesc(top)
    ensures forall i, i' :: 0 <= i < i' < |Collect(top, loaded)| ==>
              Collect(top, loaded)[i].similarity >= Collect(top, loaded)[i'].similarity
    decreases |top|
  {
    if top != [] {
      var init := top[..|top| - 1];
      var last := top[|top| - 1];
      assert forall j :: 0 <= j < |init| ==> init[j] == top[j];
      CollectSorted(init, loaded);
      var c := Collect(init, loaded);
      if last.runId in loaded {
        CollectBounds(init, loaded, last.score, top[0].score);
      }
    }
  }

  /** Scores are similarities: all in [0, 1]. */
  lemma {:induction false} ScoresRange(objective: string, rows: seq<RunRow>)
    ensures forall e :: e in Scores(objective, rows) ==> 0.0 <= e.score <= 1.0
    decreases |rows|
  {
    if rows != [] {
      var last := rows[|rows| - 1];
      ScoresRange(objective, rows[..|rows| - 1]);
      JaccardRange(objective, OrEmpty(last.objective));
    }
  }

  /** Elements of a permutation of `ys` keep the score bounds of `ys`. */
  lemma PermutationBounds(xs: seq<Scored>, ys: seq<Scored>, lo: real, hi: real)
    requires multiset(xs) == multiset(ys)
    requires forall e :: e in ys ==> lo <= e.score <= hi
    ensures forall j :: 0 <= j < |xs| ==> lo <= xs[j].score <= hi
  {
    forall j | 0 <= j < |xs| ensures lo <= xs[j].score <= hi {
      assert xs[j] in multiset(xs);
      assert xs[j] in multiset(ys);
    }
  }

  /** The candidates kept: at most `k` of the scanned runs, sorted by
      non-increasing score, each score in [0, 1]. */
  lemma TopCandidatesSpec(objective: string, k: int, scanLimit: int, store: seq<RunRow>)
    ensures var top := TopCandidates(objective, k, scanLimit, store);
            (k >= 0 ==> |top| <= k)
            && |top| <= |ListRuns(store, scanLimit)|
            && SortedDesc(top)
            && (forall j :: 0 <= j < |top| ==> 0.0 <= top[j].score <= 1.0)
  {
    var rows := ListRuns(store, scanLimit);
    var scores := Scores(objective, rows);
    var sorted := SortDesc(scores);
    SortDescSorted(scores);
    SortDescPermutes(scores);
    assert |sorted| == |scores| by {
      assert |multiset(sorted)| == |multiset(scores)|;
    }
    ScoresRange(objective, rows);
    PermutationBounds(sorted, scores, 0.0, 1.0);
    var top := Take(sorted, k);
    assert forall j :: 0 <= j < |top| ==> top[j] == sorted[j];
  }

  /** At most `k` memories come back (none for `k = 0`), at most one per
      scanned run; they are in non-increasing similarity order and their
      similarities lie in [0, 1]. */
  lemma RelevantRunsSpec(objective: string, k: int, scanLimit: int, store: seq<RunRow>,
                         loaded: map<string, StoredRun>)
    ensures var r := Collect(TopCandidates(objective, k, scanLimit, store), loaded);
            (k >= 0 ==> |r| <= k)
            && |r| <= |ListRuns(store, scanLimit)|
            && (forall i, i' :: 0 <= i < i' < |r| ==> r[i].similarity >= r[i'].similarity)
            && (forall i :: 0 <= i < |r| ==> 0.0 <= r[i].similarity <= 1.0)
  {
    var top := TopCandidates(objective, k, scanLimit, store);
    TopCandidatesSpec(objective, k, scanLimit, store);
    CollectSorted(top, loaded);
    CollectBounds(top, loaded, 0.0, 1.0);
  }

  // ---------------------------------------------------------------------------
  // format_memories
  // ---------------------------------------------------------------------------

  function BoolStr(b: bool): string {
    if b then "True" else "False"
  }

  function OptIntStr(x: Option<int>): string {
    if x.Some? then IntToString(x.value) else "None"
  }

  /** The prompt line of one memory. The body stays folded in callers'
      proofs; `MemoryLineUnfold` reveals it. */
  function MemoryLine(m: MemoryRecord): string {
    MemoryLineSteps(m, Depth(m))
  }

  lemma MemoryLineUnfold(m: MemoryRecord)
    ensures MemoryLine(m) == MemoryLineSteps(m, 0)
  {
    assert MemoryLineSteps(m, 3) == MemoryLineSteps(m, 0);
  }

  function MemoryLineSteps(m: MemoryRecord, steps: nat): string
    decreases steps
  {
    if steps > 0 then MemoryLineSteps(m, steps - 1) else
    "- run_id=" + m.runId + " sim=" + FormatFixed(m.similarity, 3) + " ok=" + BoolStr(m.ok)
    + " iters=" + OptIntStr(m.iterations)
    + " objective=" + StrRepr(Take(if m.objective.Some? then m.objective.value else "None", 80))
    + " final=" + StrRepr(Take(OrEmpty(m.finalAnswer), 160))
  }

  /** One prompt line per memory, in order. */
  function MemoryLines(ms: seq<MemoryRecord>): (r: seq<string>)
    ensures |r| == |ms|
    decreases |ms|
  {
    if ms == [] then [] else MemoryLines(ms[..|ms| - 1]) + [MemoryLine(ms[|ms| - 1])]
  }

  lemma {:induction false} MemoryLinesAt(ms: seq<MemoryRecord>, i: nat)
    requires i < |ms|
    ensures MemoryLines(ms)[i] == MemoryLine(ms[i])
    decreases |ms|
  {
    if i < |ms| - 1 {
      MemoryLinesAt(ms[..|ms| - 1], i);
    }
  }

  /** `format_memories`. */
  method FormatMemories(memories: seq<MemoryRecord>) returns (text: string)
    ensures memories == [] ==> text == "(none)"
    ensures memories != [] ==>
              text == Join("\n", MemoryLines(memories))
  {
    if memories == [] {
      return "(none)";
    }
    var lines: seq<string> := [];
    var i := 0;
    while i < |memories|
      invariant 0 <= i <= |memories|
      invariant lines == MemoryLines(memories[..i])
    {
      assert memories[..i + 1][..i] == memories[..i];
      lines := lines + [MemoryLine(memories[i])];
      i := i + 1;
    }
    assert memories[..i] == memories;
    text := Join("\n", lines);
  }

  /** A memory line breaks only where the run id has a line break: the quoted
      objective and answer are escaped. */
  lemma LeadLabelsOneLine()
    ensures '\n' !in "- run_id=" && '\n' !in " sim=" && '\n' !in " ok="
  {
  }

  lemma TailLabelsOneLine()
    ensures '\n' !in " iters=" && '\n' !in " objective=" && '\n' !in " final="
  {
  }

  lemma ValuesOneLine(m: MemoryRecord)
    ensures '\n' !in FormatFixed(m.similarity, 3) && '\n' !in OptIntStr(m.iterations) && '\n' !in BoolStr(m.ok)
  {
    var sim := FormatFixed(m.similarity, 3);
    assert '\n' !in sim;
    var it := OptIntStr(m.iterations);
    assert '\n' !in it;
  }

  lemma MemoryLineSingle(m: MemoryRecord)
    requires '\n' !in m.runId
    ensures '\n' !in MemoryLine(m)
  {
    MemoryLineUnfold(m);
    LeadLabelsOneLine();
    TailLabelsOneLine();
    ValuesOneLine(m);
    var o := StrRepr(Take(if m.objective.Some? then m.objective.value else "None", 80));
    var f := StrRepr(Take(OrEmpty(m.finalAnswer), 160));
    assert '\n' !in o && '\n' !in f;
  }

  /** The text has exactly one line per memory. */
  lemma FormatMemoriesLines(memories: seq<MemoryRecord>)
    requires memories != []
    requires forall i :: 0 <= i < |memories| ==> '\n' !in memories[i].runId
    ensures var lines := MemoryLines(memories);
            Split(Join("\n", lines), '\n') == lines
  {
    var lines := MemoryLines(memories);
    forall i | 0 <= i < |lines| ensures '\n' !in lines[i] {
      MemoryLinesAt(memories, i);
      MemoryLineSingle(memories[i]);
    }
    SplitJoin(lines, '\n');
  }
}
