/** `normalize_lead_text`: the inbound lead text is given uniform line
    endings, stripped, cleared of quoted reply lines, stripped again, has runs
    of blank lines shortened and is cut to a maximum length with a marker. */
module Normalizer {
  import opened Strings

  /** `MAX_LEN`. */
  const MaxLen: nat := 4000

  /** What a cut text ends with. */
  const TruncationMarker: string := "\n\n[TRUNCATED]"

  // ---------------------------------------------------------------------------
  // The stages
  // ---------------------------------------------------------------------------

  /** `text.replace("\r\n", "\n").replace("\r", "\n")`. */
  function UnifyLineEndings(text: string): string {
    ReplaceAll(ReplaceAll(text, "\r\n", "\n"), "\r", "\n")
  }

  /** A line survives the quote filter unless, stripped, it starts with `>`. */
  predicate Kept(line: string) {
    !StartsWith(Strip(line), ">")
  }

  /** The kept lines, in order. */
  function Filter(lines: seq<string>): seq<string>
    decreases |lines|
  {
    if lines == [] then []
    else
      var last := lines[|lines| - 1];
      Filter(lines[..|lines| - 1]) + (if Kept(last) then [last] else [])
  }

  /** `"\n".join(kept lines of t.split("\n")).strip()`. */
  function DropQuotedLines(t: string): string {
    Strip(Join("\n", Filter(Split(t, '\n'))))
  }

  /** Three newlines start at index `i`. */
  predicate TripleAt(s: string, i: int)
    requires 0 <= i <= |s| - 3
  {
    s[i] == '\n' && s[i + 1] == '\n' && s[i + 2] == '\n'
  }

  predicate NoTriple(s: string) {
    forall i :: 0 <= i <= |s| - 3 ==> !TripleAt(s, i)
  }

  /** `re.sub(r"\n{3,}", "\n\n", s)`: a newline followed by two more is
      dropped, which leaves two of every longer run. */
  function Collapse(s: string): string
    decreases |s|
  {
    if s == [] then []
    else if |s| >= 3 && TripleAt(s, 0) then Collapse(s[1..])
    else [s[0]] + Collapse(s[1..])
  }

  /** The cut at `MAX_LEN`. */
  function Truncate(t: string): string {
    if |t| > MaxLen then RStrip(t[..MaxLen]) + TruncationMarker else t
  }

  /** `normalize_lead_text(text)`. */
  function Normalize(text: string): string {
    if text == [] then []
    else Truncate(Collapse(DropQuotedLines(Strip(UnifyLineEndings(text)))))
  }

  /** The loop of `normalize_lead_text`, one stage after another. */
  method NormalizeLeadText(text: string) returns (r: string)
    ensures r == Normalize(text)
  {
    if text == [] {
      return [];
    }
    var t := ReplaceAll(text, "\r\n", "\n");
    t := ReplaceAll(t, "\r", "\n");
    t := Strip(t);
    var pieces := Split(t, '\n');
    var lines: seq<string> := [];
    for i := 0 to |pieces|
      invariant lines == Filter(pieces[..i])
    {
      assert pieces[..i + 1][..i] == pieces[..i];
      if !StartsWith(Strip(pieces[i]), ">") {
        lines := lines + [pieces[i]];
      }
    }
    assert pieces[..|pieces|] == pieces;
    t := Strip(Join("\n", lines));
    t := Collapse(t);
    if |t| > MaxLen {
      t := RStrip(t[..MaxLen]) + TruncationMarker;
    }
    r := t;
  }

  // ---------------------------------------------------------------------------
  // Line endings
  // ---------------------------------------------------------------------------

  lemma {:induction false} ReplaceAbsent(s: string, pat: string, repl: string)
    requires pat != [] && pat[0] !in s
    ensures ReplaceAll(s, pat, repl) == s
    decreases |s|
  {
    if s != [] {
      assert !StartsWith(s, pat);
      assert pat[0] !in s[1..] by { assert forall c :: c in s[1..] ==> c in s; }
      ReplaceAbsent(s[1..], pat, repl);
      assert [s[0]] + s[1..] == s;
    }
  }

  /** No carriage return survives, and text without one is left alone. */
  lemma UnifyLineEndingsSpec(text: string)
    ensures '\r' !in UnifyLineEndings(text)
    ensures '\r' !in text ==> UnifyLineEndings(text) == text
  {
    ReplaceCharRemoves(ReplaceAll(text, "\r\n", "\n"), '\r', '\n');
    if '\r' !in text {
      ReplaceAbsent(text, "\r\n", "\n");
      ReplaceAbsent(text, "\r", "\n");
    }
  }

  // ---------------------------------------------------------------------------
  // The quote filter
  // ---------------------------------------------------------------------------

  predicate AllKept(lines: seq<string>) {
    forall i :: 0 <= i < |lines| ==> Kept(lines[i])
  }

  /** Whether a line is kept is decided by its first non-blank character. */
  lemma KeptByLStrip(line: string)
    ensures Kept(line) <==> (LStrip(line) == [] || LStrip(line)[0] != '>')
  {
    StripUnfold(line);
    var l := LStrip(line);
    RStripSpec(l);
    if l != [] && l[0] == '>' {
      assert RStrip(l) != [];
      assert RStrip(l)[0] == l[0];
    }
    if StartsWith(Strip(line), ">") {
      assert RStrip(l)[0] == l[0];
    }
  }

  lemma KeptCons(c: char, p: string)
    ensures IsSpace(c) ==> (Kept([c] + p) <==> Kept(p))
    ensures !IsSpace(c) ==> (Kept([c] + p) <==> c != '>')
  {
    assert ([c] + p)[1..] == p;
    KeptByLStrip([c] + p);
    KeptByLStrip(p);
  }

  lemma KeptEmpty()
    ensures Kept([])
  {
    KeptByLStrip([]);
  }

  /** Everything the filter returns is kept. */
  lemma {:induction false} FilterKept(lines: seq<string>)
    ensures AllKept(Filter(lines))
    decreases |lines|
  {
    if lines != [] {
      var init := lines[..|lines| - 1];
      FilterKept(init);
      var f := Filter(init);
      var last := lines[|lines| - 1];
      assert forall j :: 0 <= j < |f| ==> (f + [last])[j] == f[j];
    }
  }

  /** A list of kept lines passes the filter whole. */
  lemma {:induction false} FilterOfKept(lines: seq<string>)
    requires AllKept(lines)
    ensures Filter(lines) == lines
    decreases |lines|
  {
    if lines != [] {
      var init := lines[..|lines| - 1];
      var last := lines[|lines| - 1];
      assert AllKept(init) by {
        forall j | 0 <= j < |init| ensures Kept(init[j]) {
          assert init[j] == lines[j];
        }
      }
      FilterOfKept(init);
      assert Kept(last);
      assert Filter(lines) == init + [last];
      assert init + [last] == lines;
    }
  }

  /** The filter only drops lines. */
  lemma {:induction false} FilterFrom(lines: seq<string>)
    ensures forall j :: 0 <= j < |Filter(lines)| ==> Filter(lines)[j] in lines
    decreases |lines|
  {
    if lines != [] {
      var init := lines[..|lines| - 1];
      FilterFrom(init);
      var f := Filter(init);
      var last := lines[|lines| - 1];
      forall j | 0 <= j < |Filter(lines)| ensures Filter(lines)[j] in lines {
        if j < |f| {
          assert Filter(lines)[j] == f[j];
          assert f[j] in init;
          var k :| 0 <= k < |init| && init[k] == f[j];
          assert lines[k] == init[k];
        } else {
          assert Filter(lines)[j] == last;
        }
      }
    }
  }

  /** The lines of the filtered text are its pieces: there is no newline in
      them to split on again. */
  lemma FilteredLines(t: string)
    ensures Split(Join("\n", Filter(Split(t, '\n'))), '\n') == Filter(Split(t, '\n'))
        || Filter(Split(t, '\n')) == []
  {
    var pieces := Split(t, '\n');
    var lines := Filter(pieces);
    FilterFrom(pieces);
    SplitPiecesHaveNoSeparator(t, '\n');
    if lines != [] {
      assert forall i :: 0 <= i < |lines| ==> '\n' !in lines[i] by {
        forall i | 0 <= i < |lines| ensures '\n' !in lines[i] {
          var k :| 0 <= k < |pieces| && pieces[k] == lines[i];
        }
      }
      SplitJoin(lines, '\n');
    }
  }

  /** Reading `s` from left to right, no line has `>` as its first
      non-blank character; `blank` says whether the current line has
      held only whitespace so far. */
  predicate QuoteFree(s: string, blank: bool)
    decreases |s|
  {
    if s == [] then true
    else if s[0] == '\n' then QuoteFree(s[1..], true)
    else if blank && s[0] == '>' then false
    else QuoteFree(s[1..], blank && IsSpace(s[0]))
  }

  lemma AllKeptCons(x: string, rest: seq<string>)
    ensures AllKept([x] + rest) <==> Kept(x) && AllKept(rest)
  {
    assert forall i :: 0 <= i < |rest| ==> ([x] + rest)[i + 1] == rest[i];
    assert ([x] + rest)[0] == x;
    if Kept(x) && AllKept(rest) {
      forall i | 0 <= i < |[x] + rest| ensures Kept(([x] + rest)[i]) {
        if i > 0 {
          assert ([x] + rest)[i] == rest[i - 1];
        }
      }
    }
  }

  /** `QuoteFree` from a line start says every line of the split is kept;
      from inside a line, every line after the first. */
  lemma {:induction false} QuoteFreeLines(s: string)
    ensures QuoteFree(s, true) <==> AllKept(Split(s, '\n'))
    ensures QuoteFree(s, false) <==> AllKept(Split(s, '\n')[1..])
    decreases |s|
  {
    KeptEmpty();
    if s == [] {
      assert Split(s, '\n') == [[]];
      assert Split(s, '\n')[1..] == [];
    } else {
      var rest := Split(s[1..], '\n');
      QuoteFreeLines(s[1..]);
      assert rest == [rest[0]] + rest[1..];
      AllKeptCons(rest[0], rest[1..]);
      if s[0] == '\n' {
        assert Split(s, '\n') == [[]] + rest;
        AllKeptCons([], rest);
        assert Split(s, '\n')[1..] == rest;
      } else {
        var first := [s[0]] + rest[0];
        assert Split(s, '\n') == [first] + rest[1..];
        assert Split(s, '\n')[1..] == rest[1..];
        KeptCons(s[0], rest[0]);
        AllKeptCons(first, rest[1..]);
      }
    }
  }

  /** Every prefix of a quote-free text is quote-free. */
  lemma {:induction false} QuoteFreePrefix(s: string, n: nat, blank: bool)
    requires n <= |s| && QuoteFree(s, blank)
    ensures QuoteFree(s[..n], blank)
    decreases n
  {
    if n > 0 {
      assert s[..n][0] == s[0];
      assert s[..n][1..] == s[1..][..n - 1];
      QuoteFreePrefix(s[1..], n - 1, if s[0] == '\n' then true else blank && IsSpace(s[0]));
    }
  }

  lemma {:induction false} QuoteFreeLStrip(s: string)
    requires QuoteFree(s, true)
    ensures QuoteFree(LStrip(s), true)
    decreases |s|
  {
    if |s| > 0 && IsSpace(s[0]) {
      QuoteFreeLStrip(s[1..]);
    }
  }

  lemma QuoteFreeStrip(s: string)
    requires QuoteFree(s, true)
    ensures QuoteFree(Strip(s), true)
  {
    StripUnfold(s);
    QuoteFreeLStrip(s);
    RStripSpec(LStrip(s));
    QuoteFreePrefix(LStrip(s), |RStrip(LStrip(s))|, true);
  }

  lemma {:induction false} QuoteFreeAppendLine(a: string, b: string, blank: bool)
    requires QuoteFree(a, blank) && QuoteFree(b, true)
    ensures QuoteFree(a + ['\n'] + b, blank)
    decreases |a|
  {
    if a == [] {
      assert ([] + ['\n'] + b)[1..] == b;
    } else {
      assert (a + ['\n'] + b)[1..] == a[1..] + ['\n'] + b;
      QuoteFreeAppendLine(a[1..], b, if a[0] == '\n' then true else blank && IsSpace(a[0]));
    }
  }

  /** Inside a line, only a newline can lead to a quote. */
  lemma {:induction false} QuoteFreeOneLine(s: string)
    requires '\n' !in s
    ensures QuoteFree(s, false)
    decreases |s|
  {
    if s != [] {
      assert '\n' !in s[1..] by { assert forall c :: c in s[1..] ==> c in s; }
      QuoteFreeOneLine(s[1..]);
    }
  }

  lemma MarkerLineQuoteFree()
    ensures QuoteFree("\n[TRUNCATED]", true)
  {
    var m := "\n[TRUNCATED]";
    QuoteFreeOneLine(m[2..]);
    assert m[1..][1..] == m[2..];
  }

  // ---------------------------------------------------------------------------
  // Collapsing blank lines
  // ---------------------------------------------------------------------------

  function Newlines(k: nat): (r: string)
    ensures |r| == k
  {
    if k == 0 then [] else ['\n'] + Newlines(k - 1)
  }

  lemma NewlinesHead(k: nat, s: string)
    requires k >= 1
    ensures (Newlines(k) + s)[0] == '\n' && (Newlines(k) + s)[1..] == Newlines(k - 1) + s
  {
    assert Newlines(k) + s == ['\n'] + (Newlines(k - 1) + s);
  }

  /** A newline followed by two more is dropped. */
  lemma CollapseDrop(k: nat, s: string)
    requires k >= 3
    ensures Collapse(Newlines(k) + s) == Collapse(Newlines(k - 1) + s)
  {
    var x := Newlines(k) + s;
    NewlinesHead(k, s);
    NewlinesHead(k - 1, s);
    NewlinesHead(k - 2, s);
    assert x[1] == (Newlines(k - 1) + s)[0];
    assert x[2] == (Newlines(k - 2) + s)[0];
    assert TripleAt(x, 0);
  }

  /** A newline not followed by two more is kept. */
  lemma CollapseKeep(k: nat, s: string)
    requires 1 <= k <= 2 && (s == [] || s[0] != '\n')
    ensures Collapse(Newlines(k) + s) == ['\n'] + Collapse(Newlines(k - 1) + s)
  {
    var x := Newlines(k) + s;
    NewlinesHead(k, s);
    if |x| >= 3 {
      assert x[k] == s[0];
      assert !TripleAt(x, 0);
    }
  }

  /** The collapse shortens every run of three or more newlines to two and
      leaves the rest of the text alone; with `CollapseOther` this determines
      it whole. */
  lemma {:induction false} CollapseRun(k: nat, s: string)
    requires s == [] || s[0] != '\n'
    ensures Collapse(Newlines(k) + s) == Newlines(if k <= 2 then k else 2) + Collapse(s)
    decreases k
  {
    if k == 0 {
      assert Newlines(0) + s == s;
    } else if k <= 2 {
      CollapseKeep(k, s);
      CollapseRun(k - 1, s);
      assert ['\n'] + (Newlines(k - 1) + Collapse(s)) == Newlines(k) + Collapse(s);
    } else {
      CollapseDrop(k, s);
      CollapseRun(k - 1, s);
    }
  }

  lemma CollapseOther(c: char, s: string)
    requires c != '\n'
    ensures Collapse([c] + s) == [c] + Collapse(s)
  {
    assert ([c] + s)[1..] == s;
  }

  /** A collapsed text starts with as many newlines as the original, up to
      two. */
  lemma {:induction false} CollapseHead(x: string)
    ensures |Collapse(x)| >= 1 && Collapse(x)[0] == '\n' ==> |x| >= 1 && x[0] == '\n'
    ensures |Collapse(x)| >= 2 && Collapse(x)[0] == '\n' && Collapse(x)[1] == '\n'
      ==> |x| >= 2 && x[0] == '\n' && x[1] == '\n'
    ensures x != [] && x[0] != '\n' ==> Collapse(x) != [] && Collapse(x)[0] == x[0]
    decreases |x|
  {
    if x != [] {
      CollapseHead(x[1..]);
    }
  }

  /** A collapsed text ends the way the original does. */
  lemma {:induction false} CollapseLast(x: string)
    ensures x != [] ==> Collapse(x) != [] && Collapse(x)[|Collapse(x)| - 1] == x[|x| - 1]
    decreases |x|
  {
    if x != [] {
      CollapseLast(x[1..]);
    }
  }

  lemma {:induction false} CollapseChars(x: string, c: char)
    requires c in Collapse(x)
    ensures c in x
    decreases |x|
  {
    if c != x[0] {
      CollapseChars(x[1..], c);
    }
  }

  /** No three newlines in a row remain. */
  lemma {:induction false} CollapseNoTriple(x: string)
    ensures NoTriple(Collapse(x))
    decreases |x|
  {
    if x != [] {
      CollapseNoTriple(x[1..]);
      if !(|x| >= 3 && TripleAt(x, 0)) {
        var c := Collapse(x[1..]);
        var r := [x[0]] + c;
        CollapseHead(x[1..]);
        forall i | 0 <= i <= |r| - 3
          ensures !TripleAt(r, i)
        {
          if i > 0 {
            assert !TripleAt(c, i - 1);
          }
        }
      }
    }
  }

  /** A text without three newlines in a row is left alone. */
  lemma {:induction false} CollapseOfNoTriple(x: string)
    requires NoTriple(x)
    ensures Collapse(x) == x
    decreases |x|
  {
    if x != [] {
      assert NoTriple(x[1..]) by {
        forall i | 0 <= i <= |x| - 4 ensures !TripleAt(x[1..], i) {
          assert !TripleAt(x, i + 1);
        }
      }
      CollapseOfNoTriple(x[1..]);
      if |x| >= 3 {
        assert !TripleAt(x, 0);
      }
      assert [x[0]] + x[1..] == x;
    }
  }

  lemma {:induction false} QuoteFreeCollapse(x: string, blank: bool)
    requires QuoteFree(x, blank)
    ensures QuoteFree(Collapse(x), blank)
    decreases |x|
  {
    if x != [] {
      if |x| >= 3 && TripleAt(x, 0) {
        assert QuoteFree(x[1..], blank) by {
          assert x[1..][0] == '\n';
        }
        QuoteFreeCollapse(x[1..], blank);
      } else {
        var next := if x[0] == '\n' then true else blank && IsSpace(x[0]);
        QuoteFreeCollapse(x[1..], next);
        assert ([x[0]] + Collapse(x[1..]))[1..] == Collapse(x[1..]);
      }
    }
  }

  // ---------------------------------------------------------------------------
  // Truncation
  // ---------------------------------------------------------------------------

  /** The part kept before the marker is a non-empty prefix that ends in a
      visible character. */
  lemma CutPart(t: string)
    requires |t| > MaxLen && !IsSpace(t[0])
    ensures var a := RStrip(t[..MaxLen]);
      a != [] && a == t[..|a|] && |a| <= MaxLen && !IsSpace(a[|a| - 1]) && a[0] == t[0]
  {
    var p := t[..MaxLen];
    RStripSpec(p);
    var a := RStrip(p);
    assert a != [];
    assert a[0] == p[0];
  }

  lemma NoTriplePrefix(t: string, n: nat)
    requires n <= |t| && NoTriple(t)
    ensures NoTriple(t[..n])
  {
    forall i | 0 <= i <= n - 3 ensures !TripleAt(t[..n], i) {
      assert !TripleAt(t, i);
    }
  }

  lemma NoTripleMarker(a: string)
    requires NoTriple(a) && a != [] && a[|a| - 1] != '\n'
    ensures NoTriple(a + TruncationMarker)
  {
    var r := a + TruncationMarker;
    forall i | 0 <= i <= |r| - 3 ensures !TripleAt(r, i) {
      if i + 2 < |a| {
        assert !TripleAt(a, i);
      } else if i < |a| {
        assert r[|a| - 1] == a[|a| - 1];
      } else {
        assert r[|a| + 2] == '[';
      }
    }
  }

  // ---------------------------------------------------------------------------
  // What a normalized text looks like
  // ---------------------------------------------------------------------------

  /** A normalized text: no carriage return, stripped, no quoted line and no
      three newlines in a row. */
  predicate Clean(t: string) {
    '\r' !in t && IsStripped(t) && QuoteFree(t, true) && NoTriple(t)
  }

  /** The filtered text is stripped and holds no quoted line. */
  lemma DropQuotedLinesQuoteFree(t: string)
    ensures IsStripped(DropQuotedLines(t)) && QuoteFree(DropQuotedLines(t), true)
  {
    var lines := Filter(Split(t, '\n'));
    var j := Join("\n", lines);
    StripCharacterization(j);
    FilterKept(Split(t, '\n'));
    FilteredLines(t);
    QuoteFreeLines(j);
    if lines == [] {
      assert j == [];
    }
    QuoteFreeStrip(j);
  }

  /** Filtering brings in no carriage return. */
  lemma DropQuotedLinesNoCR(t: string)
    requires '\r' !in t
    ensures '\r' !in DropQuotedLines(t)
  {
    if '\r' in DropQuotedLines(t) {
      var pieces := Split(t, '\n');
      var lines := Filter(pieces);
      var j := Join("\n", lines);
      StripChars(j, '\r');
      JoinChars("\n", lines, '\r');
      var i :| 0 <= i < |lines| && '\r' in lines[i];
      FilterFrom(pieces);
      var k :| 0 <= k < |pieces| && pieces[k] == lines[i];
      SplitPieceChars(t, '\n', '\r');
    }
  }

  lemma MarkerShape()
    ensures TruncationMarker == ['\n'] + "\n[TRUNCATED]"
    ensures '\r' !in TruncationMarker
    ensures TruncationMarker[|TruncationMarker| - 1] == ']'
  {
  }

  lemma TruncateNoCR(t: string)
    requires '\r' !in t
    ensures '\r' !in Truncate(t)
  {
    if |t| > MaxLen {
      var a := RStrip(t[..MaxLen]);
      RStripSpec(t[..MaxLen]);
      MarkerShape();
      assert forall c :: c in a ==> c in t;
    }
  }

  lemma TruncateStripped(t: string)
    requires IsStripped(t)
    ensures IsStripped(Truncate(t))
  {
    if |t| > MaxLen {
      CutPart(t);
      MarkerShape();
      var r := RStrip(t[..MaxLen]) + TruncationMarker;
      assert r[0] == t[0];
      assert r[|r| - 1] == ']';
    }
  }

  lemma TruncateQuoteFree(t: string)
    requires IsStripped(t) && QuoteFree(t, true)
    ensures QuoteFree(Truncate(t), true)
  {
    if |t| > MaxLen {
      CutPart(t);
      var a := RStrip(t[..MaxLen]);
      QuoteFreePrefix(t, |a|, true);
      MarkerLineQuoteFree();
      QuoteFreeAppendLine(a, "\n[TRUNCATED]", true);
      MarkerShape();
      assert a + ['\n'] + "\n[TRUNCATED]" == a + TruncationMarker;
    }
  }

  lemma TruncateNoTriple(t: string)
    requires IsStripped(t) && NoTriple(t)
    ensures NoTriple(Truncate(t))
  {
    if |t| > MaxLen {
      CutPart(t);
      var a := RStrip(t[..MaxLen]);
      NoTriplePrefix(t, |a|);
      NoTripleMarker(a);
    }
  }

  lemma TruncateClean(t: string)
    requires Clean(t)
    ensures Clean(Truncate(t))
  {
    TruncateNoCR(t);
    TruncateStripped(t);
    TruncateQuoteFree(t);
    TruncateNoTriple(t);
  }

  // ---------------------------------------------------------------------------
  // Properties of normalize_lead_text
  // ---------------------------------------------------------------------------

  /** Every normalized text is clean. */
  lemma NormalizeClean(text: string)
    ensures Clean(Normalize(text))
  {
    if text != [] {
      var u := UnifyLineEndings(text);
      var s := Strip(u);
      var d := DropQuotedLines(s);
      var c := Collapse(d);
      UnifyLineEndingsSpec(text);
      if '\r' in s {
        StripChars(u, '\r');
      }
      DropQuotedLinesQuoteFree(s);
      DropQuotedLinesNoCR(s);
      if '\r' in c {
        CollapseChars(d, '\r');
      }
      QuoteFreeCollapse(d, true);
      CollapseNoTriple(d);
      CollapseHead(d);
      CollapseLast(d);
      TruncateClean(c);
    }
  }

  /** A clean text within the length limit is its own normalization. */
  lemma NormalizeFixesClean(t: string)
    requires Clean(t) && |t| <= MaxLen
    ensures Normalize(t) == t
  {
    if t != [] {
      UnifyLineEndingsSpec(t);
      StripOfStripped(t);
      var pieces := Split(t, '\n');
      QuoteFreeLines(t);
      FilterOfKept(pieces);
      JoinSplit(t, '\n');
      assert DropQuotedLines(t) == t;
      CollapseOfNoTriple(t);
    }
  }

  /** Normalizing twice is normalizing once, for outputs within the limit. */
  lemma NormalizeIdempotent(text: string)
    requires |Normalize(text)| <= MaxLen
    ensures Normalize(Normalize(text)) == Normalize(text)
  {
    NormalizeClean(text);
    NormalizeFixesClean(Normalize(text));
  }

  /** The output is at most `MAX_LEN` characters plus the marker; a text
      that fits after collapsing is returned as it is, and a longer one is
      cut to a prefix followed by the marker. */
  lemma NormalizeLength(text: string)
    ensures text == [] ==> Normalize(text) == []
    ensures |Normalize(text)| <= MaxLen + |TruncationMarker|
    ensures text != [] ==>
      var c := Collapse(DropQuotedLines(Strip(UnifyLineEndings(text))));
      (|c| <= MaxLen ==> Normalize(text) == c)
      && (|c| > MaxLen ==>
            EndsWith(Normalize(text), TruncationMarker)
            && Normalize(text) == c[..|Normalize(text)| - |TruncationMarker|] + TruncationMarker)
  {
    if text != [] {
      TruncateSpec(Collapse(DropQuotedLines(Strip(UnifyLineEndings(text)))));
    }
  }

  /** The cut keeps a text within the limit, and replaces the end of a
      longer one by the marker. */
  lemma TruncateSpec(t: string)
    ensures |Truncate(t)| <= MaxLen + |TruncationMarker|
    ensures |t| <= MaxLen ==> Truncate(t) == t
    ensures |t| > MaxLen ==>
      EndsWith(Truncate(t), TruncationMarker)
      && Truncate(t) == t[..|Truncate(t)| - |TruncationMarker|] + TruncationMarker
  {
    if |t| > MaxLen {
      var a := RStrip(t[..MaxLen]);
      RStripSpec(t[..MaxLen]);
      assert a == t[..|a|];
      var r := a + TruncationMarker;
      assert r[|r| - |TruncationMarker|..] == TruncationMarker;
      assert r[..|r| - |TruncationMarker|] == a;
    }
  }

  /** Quoted reply lines are gone: no line of the output starts, after its
      leading whitespace, with `>`. */
  lemma NormalizeDropsQuotes(text: string, i: nat)
    requires i < |Split(Normalize(text), '\n')|
    ensures !StartsWith(Strip(Split(Normalize(text), '\n')[i]), ">")
  {
    NormalizeClean(text);
    QuoteFreeLines(Normalize(text));
  }
}
