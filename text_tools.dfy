/** The local summarizer tool: sentences are the non-blank pieces of the text
    split on `.` (newlines read as spaces), the summary is the first few of them
    re-joined with `". "`, and the key points are the first five. */
module TextTools {
  import opened Wrappers
  import opened Strings
  import opened Values
  import opened ToolRouter

  /** `[s.strip() for s in pieces if s.strip()]`. */
  function StrippedNonBlank(pieces: seq<string>): (r: seq<string>)
    ensures |r| <= |pieces|
    ensures forall i :: 0 <= i < |r| ==> r[i] != [] && IsStripped(r[i])
    decreases |pieces|
  {
    if pieces == [] then []
    else
      var s := Strip(pieces[0]);
      StripCharacterization(pieces[0]);
      if s != [] then [s] + StrippedNonBlank(pieces[1..]) else StrippedNonBlank(pieces[1..])
  }

  /** A character absent from every piece is absent from every kept piece. */
  lemma {:induction false} StrippedNonBlankAvoids(pieces: seq<string>, c: char)
    requires forall j :: 0 <= j < |pieces| ==> c !in pieces[j]
    ensures forall i :: 0 <= i < |StrippedNonBlank(pieces)| ==> c !in StrippedNonBlank(pieces)[i]
    decreases |pieces|
  {
    if pieces != [] {
      assert forall j :: 0 <= j < |pieces[1..]| ==> c !in pieces[1..][j] by {
        forall j | 0 <= j < |pieces[1..]| ensures c !in pieces[1..][j] {
          assert pieces[1..][j] == pieces[j + 1];
        }
      }
      StrippedNonBlankAvoids(pieces[1..], c);
      if c in Strip(pieces[0]) {
        StripChars(pieces[0], c);
      }
    }
  }

  /** The sentences of `text`. */
  function Sentences(text: string): seq<string> {
    StrippedNonBlank(Split(ReplaceAll(text, "\n", " "), '.'))
  }

  /** Each sentence is non-blank, stripped, and holds neither `.` nor a newline. */
  lemma SentenceShape(text: string)
    ensures forall i :: 0 <= i < |Sentences(text)| ==>
              Sentences(text)[i] != [] && IsStripped(Sentences(text)[i])
              && '.' !in Sentences(text)[i] && '\n' !in Sentences(text)[i]
  {
    var flat := ReplaceAll(text, "\n", " ");
    var pieces := Split(flat, '.');
    var ss := Sentences(text);
    ReplaceCharRemoves(text, '\n', ' ');
    SplitPiecesHaveNoSeparator(flat, '.');
    StrippedNonBlankAvoids(pieces, '.');
    forall j | 0 <= j < |pieces| ensures '\n' !in pieces[j] {
      if '\n' in pieces[j] {
        SplitPieceChars(flat, '.', '\n');
      }
    }
    StrippedNonBlankAvoids(pieces, '\n');
  }

  /** The summary text before the closing period. */
  function JoinedSummary(sentences: seq<string>, maxSentences: int): string {
    Join(". ", Take(sentences, maxSentences))
  }

  function CloseSentence(s: string): string {
    s + (if s != [] && !EndsWith(s, ".") then "." else "")
  }

  datatype Summary = Summary(summary: string, keyPoints: seq<string>)

  /** `summarize_text_local(text, max_sentences)`. The key points are the first
      `min(5, n)` sentences, each non-blank and stripped. */
  function Summarize(text: string, maxSentences: int): (r: Summary)
    ensures var n := |Sentences(text)|;
            |r.keyPoints| == (if n < 5 then n else 5)
    ensures r.keyPoints <= Sentences(text)
    ensures forall i :: 0 <= i < |r.keyPoints| ==> r.keyPoints[i] != [] && IsStripped(r.keyPoints[i])
  {
    var ss := Sentences(text);
    Summary(CloseSentence(JoinedSummary(ss, maxSentences)), ss[..if 5 < |ss| then 5 else |ss|])
  }

  /** A non-empty summary ends with a period. For a non-negative limit, the
      summary is empty exactly when there are no sentences or the limit is 0,
      and it is the first `max_sentences` sentences joined by `". "`, closed
      with a period. */
  lemma {:induction false} SummaryShape(text: string, maxSentences: int)
    ensures var s := Summarize(text, maxSentences).summary;
            s != [] ==> EndsWith(s, ".")
    ensures maxSentences >= 0 ==>
              (Summarize(text, maxSentences).summary == [] <==> (Sentences(text) == [] || maxSentences == 0))
    ensures maxSentences >= 0 ==>
              Summarize(text, maxSentences).summary
              == CloseSentence(Join(". ", Sentences(text)[..if maxSentences < |Sentences(text)| then maxSentences else |Sentences(text)|]))
  {
    var ss := Sentences(text);
    var parts := Take(ss, maxSentences);
    var j := JoinedSummary(ss, maxSentences);
    JoinLength(". ", parts);
    SentenceShape(text);
    if parts != [] {
      assert parts[0] == ss[0];
    }
    var s := CloseSentence(j);
    if s != [] {
      if EndsWith(j, ".") {
        assert s == j;
      } else {
        assert s[|s| - 1..] == ".";
      }
    }
  }

  // ---------------------------------------------------------------------------
  // The function as a tool: keyword arguments in, dict out
  // ---------------------------------------------------------------------------

  const ToolName := "summarize_text_local"

  function FirstUnexpected(args: Args): (r: Option<string>)
    ensures r.Some? ==> r.value in Keys(args) && r.value != "text" && r.value != "max_sentences"
    decreases |args|
  {
    if args == [] then None
    else if args[0].key != "text" && args[0].key != "max_sentences" then Some(args[0].key)
    else FirstUnexpected(args[1..])
  }

  /** `sentences[:m]` for the value passed as `max_sentences`: an int or a bool,
      or `None` for no limit; anything else cannot index a slice. */
  function SliceLimit(m: Value, n: nat): Option<int> {
    match m
    case VNone => Some(n)
    case VInt(i) => Some(i)
    case VBool(b) => Some(if b then 1 else 0)
    case _ => None
  }

  function OutputDict(s: Summary): Dict {
    [Entry("summary", VStr(s.summary)),
     Entry("key_points", VList(seq(|s.keyPoints|, i requires 0 <= i < |s.keyPoints| => VStr(s.keyPoints[i]))))]
  }

  /** A call `summarize_text_local(**args)`, with Python's argument binding: an
      unexpected keyword or a missing `text` raises `TypeError`, a non-string
      text fails at `.replace`, and an unusable limit fails at the slice. */
  function SummarizeTool(args: Args): (r: ToolOutcome)
    ensures r.ReturnsDict? ==>
              exists t :: Get(args, "text") == Some(VStr(t))
                          && (Get(args, "max_sentences") == Some(VInt(2)) ==> r.data == OutputDict(Summarize(t, 2)))
    ensures Get(args, "text") == None ==> r.RaisesTypeError?
    ensures FirstUnexpected(args).Some? ==> r.RaisesTypeError?
  {
    if FirstUnexpected(args).Some? then
      RaisesTypeError(ToolName + "() got an unexpected keyword argument " + StrRepr(FirstUnexpected(args).value))
    else
      match Get(args, "text")
      case None => RaisesTypeError(ToolName + "() missing 1 required positional argument: 'text'")
      case Some(v) =>
        if !v.VStr? then RaisesOther("AttributeError", "'" + TypeName(v) + "' object has no attribute 'replace'")
        else
          var m := if Get(args, "max_sentences").Some? then Get(args, "max_sentences").value else VInt(2);
          var ss := Sentences(v.s);
          match SliceLimit(m, |ss|)
          case None => RaisesTypeError("slice indices must be integers or None or have an __index__ method")
          case Some(k) => ReturnsDict(OutputDict(Summarize(v.s, k)))
  }
}
