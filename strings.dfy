/** The handful of Python `str` operations the modelled code relies on, written
    out over `seq<char>`: whitespace, ASCII lower-casing, strip, split and join,
    splitlines, substring search, slicing with Python's negative bounds, and the
    decimal, fixed-point and `repr` renderings that end up in messages. */
module Strings {

  // ---------------------------------------------------------------------------
  // Characters
  // ---------------------------------------------------------------------------

  /** Python's `str.isspace()`: ASCII whitespace, the information separators
      0x1C-0x1F and the Unicode space separators. */
  predicate IsSpace(c: char) {
    c == ' ' || ('\t' <= c <= '\r') || ('\U{1C}' <= c <= '\U{1F}') || c == '\U{85}' || c == '\U{A0}'
    || c == '\U{1680}' || ('\U{2000}' <= c <= '\U{200A}') || c == '\U{2028}' || c == '\U{2029}'
    || c == '\U{202F}' || c == '\U{205F}' || c == '\U{3000}'
  }

  /** The line boundaries of Python's `str.splitlines()` (besides CR LF, which
      counts as one boundary). */
  predicate IsLineBreak(c: char) {
    c == '\n' || c == '\r' || c == '\U{0B}' || c == '\U{0C}' || ('\U{1C}' <= c <= '\U{1E}')
    || c == '\U{85}' || c == '\U{2028}' || c == '\U{2029}'
  }

  function LowerChar(c: char): (r: char)
    ensures 'A' <= c <= 'Z' ==> 'a' <= r <= 'z'
    ensures !('A' <= c <= 'Z') ==> r == c
  {
    if 'A' <= c <= 'Z' then (c as int + 32) as char else c
  }

  /** `str.lower()` restricted to ASCII letters. */
  function Lower(s: string): (r: string)
    ensures |r| == |s|
    ensures forall i :: 0 <= i < |s| ==> r[i] == LowerChar(s[i])
  {
    seq(|s|, i requires 0 <= i < |s| => LowerChar(s[i]))
  }

  lemma LowerIdempotent(s: string)
    ensures Lower(Lower(s)) == Lower(s)
  {
    assert forall i :: 0 <= i < |s| ==> Lower(Lower(s))[i] == Lower(s)[i];
  }

  lemma LowerConcat(a: string, b: string)
    ensures Lower(a + b) == Lower(a) + Lower(b)
  {
    assert forall i :: 0 <= i < |a + b| ==> Lower(a + b)[i] == (Lower(a) + Lower(b))[i];
  }

  // ---------------------------------------------------------------------------
  // Prefixes, suffixes, substrings
  // ---------------------------------------------------------------------------

  predicate StartsWith(s: string, p: string) {
    |p| <= |s| && s[..|p|] == p
  }

  predicate EndsWith(s: string, p: string) {
    |p| <= |s| && s[|s| - |p|..] == p
  }

  /** `k` occurs in `s` at index `i`. */
  predicate OccursAt(s: string, k: string, i: int) {
    0 <= i <= |s| - |k| && s[i..i + |k|] == k
  }

  /** `s.index(c)`: the first position of `c`. */
  function IndexOf(s: string, c: char): (i: nat)
    requires c in s
    ensures i < |s| && s[i] == c
    ensures c !in s[..i]
    decreases |s|
  {
    if s[0] == c then 0
    else
      assert c in s[1..] by {
        var j :| 0 <= j < |s| && s[j] == c;
        assert s[1..][j - 1] == c;
      }
      var k := IndexOf(s[1..], c);
      assert s[..k + 1] == [s[0]] + s[1..][..k];
      1 + k
  }

  /** Python's `k in s` for strings. */
  predicate Contains(s: string, k: string) {
    exists i :: 0 <= i <= |s| - |k| && OccursAt(s, k, i)
  }

  /** A needle without the separator occurs in `a + [sep] + b` exactly when it
      occurs in `a` or in `b`. */
  lemma {:induction false} ContainsAroundSeparator(a: string, sep: char, b: string, k: string)
    requires sep !in k
    ensures Contains(a + [sep] + b, k) <==> Contains(a, k) || Contains(b, k)
  {
    var s := a + [sep] + b;
    if Contains(s, k) {
      var i :| 0 <= i <= |s| - |k| && OccursAt(s, k, i);
      if i + |k| <= |a| {
        assert a[i..i + |k|] == s[i..i + |k|];
        assert OccursAt(a, k, i);
      } else if i > |a| {
        assert forall m :: i <= m < i + |k| ==> s[m] == b[m - |a| - 1];
        assert b[i - |a| - 1..i - |a| - 1 + |k|] == s[i..i + |k|];
        assert OccursAt(b, k, i - |a| - 1);
      } else {
        StraddleHasSeparator(a, sep, b, k, i);
      }
    }
    if Contains(a, k) {
      var i :| 0 <= i <= |a| - |k| && OccursAt(a, k, i);
      assert s[i..i + |k|] == a[i..i + |k|];
      assert OccursAt(s, k, i);
    }
    if Contains(b, k) {
      var i :| 0 <= i <= |b| - |k| && OccursAt(b, k, i);
      var j := i + |a| + 1;
      assert forall m :: j <= m < j + |k| ==> s[m] == b[m - |a| - 1];
      assert s[j..j + |k|] == b[i..i + |k|];
      assert OccursAt(s, k, j);
    }
  }

  /** An occurrence that covers the separator's position holds the separator. */
  lemma StraddleHasSeparator(a: string, sep: char, b: string, k: string, i: int)
    requires 0 <= i <= |a| < i + |k| <= |a| + 1 + |b|
    requires OccursAt(a + [sep] + b, k, i)
    ensures sep in k
  {
    var s := a + [sep] + b;
    assert k[|a| - i] == s[|a|];
  }

  lemma LowerContains(s: string, k: string)
    requires Contains(s, k)
    ensures Contains(Lower(s), Lower(k))
  {
    var i :| 0 <= i <= |s| - |k| && OccursAt(s, k, i);
    assert Lower(s)[i..i + |k|] == Lower(k);
    assert OccursAt(Lower(s), Lower(k), i);
  }

  // ---------------------------------------------------------------------------
  // strip
  // ---------------------------------------------------------------------------

  /** `str.lstrip()`. Its properties are stated by `LStripSpec` rather than
      as postconditions, which every mention of a stripped text would
      otherwise carry into unrelated proofs. */
  function LStrip(s: string): (r: string)
    ensures |r| <= |s|
    decreases |s|
  {
    if |s| > 0 && IsSpace(s[0]) then LStrip(s[1..]) else s
  }

  /** `str.rstrip()`. */
  function RStrip(s: string): (r: string)
    ensures |r| <= |s|
    decreases |s|
  {
    if |s| > 0 && IsSpace(s[|s| - 1]) then RStrip(s[..|s| - 1]) else s
  }

  /** `LStrip(s)` is a suffix of `s`: what it drops is whitespace, and it
      does not start with whitespace. */
  lemma {:induction false} LStripSpec(s: string)
    ensures LStrip(s) == s[|s| - |LStrip(s)|..]
    ensures forall i :: 0 <= i < |s| - |LStrip(s)| ==> IsSpace(s[i])
    ensures LStrip(s) != [] ==> !IsSpace(LStrip(s)[0])
    decreases |s|
  {
    if |s| > 0 && IsSpace(s[0]) {
      LStripSpec(s[1..]);
      assert forall i :: 1 <= i < |s| - |LStrip(s)| ==> s[i] == s[1..][i - 1];
    }
  }

  /** `RStrip(s)` is a prefix of `s`: what it drops is whitespace, and it
      does not end with whitespace. */
  lemma {:induction false} RStripSpec(s: string)
    ensures RStrip(s) == s[..|RStrip(s)|]
    ensures forall i :: |RStrip(s)| <= i < |s| ==> IsSpace(s[i])
    ensures RStrip(s) != [] ==> !IsSpace(RStrip(s)[|RStrip(s)| - 1])
    decreases |s|
  {
    if |s| > 0 && IsSpace(s[|s| - 1]) {
      RStripSpec(s[..|s| - 1]);
      assert forall i :: |RStrip(s)| <= i < |s| - 1 ==> s[i] == s[..|s| - 1][i];
    }
  }

  /** A depth of unfolding that the verifier does not see as a literal. A
      function `F(x, steps)` that only counts `steps` down before computing
      its value stays folded in the proofs of callers when it is called as
      `F(x, Depth(x))`, and a lemma reveals it by unfolding `F(x, 3)`. */
  function Depth<T>(x: T): nat {
    3
  }

  function StripSteps(s: string, steps: nat): string
    decreases steps
  {
    if steps > 0 then StripSteps(s, steps - 1) else RStrip(LStrip(s))
  }

  /** `str.strip()`. The body stays folded in callers' proofs, where every
      unfolding of `LStrip` and `RStrip` would split on each kind of
      whitespace; `StripUnfold` reveals it. */
  function Strip(s: string): (r: string)
    ensures |r| <= |s|
  {
    assert StripSteps(s, 3) == StripSteps(s, 0);
    StripSteps(s, Depth(s))
  }

  lemma StripUnfold(s: string)
    ensures Strip(s) == RStrip(LStrip(s))
  {
    assert StripSteps(s, 3) == StripSteps(s, 0);
  }

  /** Neither end of `s` is whitespace: `s.strip() == s`. */
  predicate IsStripped(s: string) {
    s == [] || (!IsSpace(s[0]) && !IsSpace(s[|s| - 1]))
  }

  /** Only whitespace: `not s.strip()`. */
  predicate IsBlank(s: string) {
    forall i :: 0 <= i < |s| ==> IsSpace(s[i])
  }

  /** The index where `Strip(s)` begins within `s`. */
  function StripStart(s: string): (k: nat)
    ensures k <= |s|
  {
    |s| - |LStrip(s)|
  }

  /** `Strip(s)` is the slice of `s` that starts at `StripStart(s)`. */
  lemma StripSlice(s: string)
    ensures StripStart(s) + |Strip(s)| <= |s|
    ensures Strip(s) == s[StripStart(s)..StripStart(s) + |Strip(s)|]
  {
    var l := LStrip(s);
    var k := StripStart(s);
    LStripSpec(s);
    RStripSpec(l);
    assert l == s[k..];
  }

  lemma {:induction false} StripBlank(s: string)
    ensures Strip(s) == [] <==> IsBlank(s)
  {
    var l := LStrip(s);
    var k := StripStart(s);
    LStripSpec(s);
    RStripSpec(l);
    assert l == s[k..];
    if Strip(s) != [] {
      StripSlice(s);
      assert Strip(s)[0] == s[k];
    }
  }

  lemma {:induction false} StripCharacterization(s: string)
    ensures IsStripped(Strip(s))
    ensures Strip(s) == [] <==> IsBlank(s)
    ensures Strip(s) == s <==> IsStripped(s)
    ensures StripStart(s) + |Strip(s)| <= |s|
    ensures Strip(s) == s[StripStart(s)..StripStart(s) + |Strip(s)|]
  {
    StripSlice(s);
    StripBlank(s);
    var l := LStrip(s);
    var r := RStrip(l);
    LStripSpec(s);
    RStripSpec(l);
    if r != [] {
      assert r[0] == l[0];
    }
    if IsStripped(s) && s != [] {
      assert l == s;
      assert r == l;
    }
  }

  lemma StripOfStripped(s: string)
    requires IsStripped(s)
    ensures Strip(s) == s
  {
    StripCharacterization(s);
  }

  /** Stripping once is enough: `s.strip().strip() == s.strip()`. */
  lemma StripIdempotent(s: string)
    ensures Strip(Strip(s)) == Strip(s)
  {
    StripCharacterization(s);
    StripOfStripped(Strip(s));
  }

  /** Characters of a stripped string all come from the original. */
  lemma {:induction false} StripChars(s: string, c: char)
    requires c in Strip(s)
    ensures c in s
  {
    StripCharacterization(s);
    var k := StripStart(s);
    var i :| 0 <= i < |Strip(s)| && Strip(s)[i] == c;
    assert s[k + i] == c;
  }

  // ---------------------------------------------------------------------------
  // split on one character, join
  // ---------------------------------------------------------------------------

  /** `s.split(sep)` for a one-character separator: never empty, and empty
      pieces are kept. */
  function Split(s: string, sep: char): (r: seq<string>)
    ensures |r| >= 1
    decreases |s|
  {
    if s == [] then [[]]
    else
      var rest := Split(s[1..], sep);
      if s[0] == sep then [[]] + rest else [[s[0]] + rest[0]] + rest[1..]
  }

  /** `sep.join(parts)`. */
  function Join(sep: string, parts: seq<string>): string
    decreases |parts|
  {
    if |parts| == 0 then []
    else if |parts| == 1 then parts[0]
    else parts[0] + sep + Join(sep, parts[1..])
  }

  lemma {:induction false} SplitPiecesHaveNoSeparator(s: string, sep: char)
    ensures forall i :: 0 <= i < |Split(s, sep)| ==> sep !in Split(s, sep)[i]
    decreases |s|
  {
    if s != [] {
      SplitPiecesHaveNoSeparator(s[1..], sep);
    }
  }

  /** Every character of a piece comes from the split string. */
  lemma {:induction false} SplitPieceChars(s: string, sep: char, c: char)
    requires exists i :: 0 <= i < |Split(s, sep)| && c in Split(s, sep)[i]
    ensures c in s
    decreases |s|
  {
    if s != [] {
      var rest := Split(s[1..], sep);
      var i :| 0 <= i < |Split(s, sep)| && c in Split(s, sep)[i];
      if s[0] == sep {
        if i > 0 {
          assert c in rest[i - 1];
          SplitPieceChars(s[1..], sep, c);
        }
      } else if i == 0 {
        if c != s[0] {
          assert c in rest[0];
          SplitPieceChars(s[1..], sep, c);
        }
      } else {
        assert c in rest[i];
        SplitPieceChars(s[1..], sep, c);
      }
    }
  }

  /** Joining the pieces of a split gives the string back. */
  lemma {:induction false} JoinSplit(s: string, sep: char)
    ensures Join([sep], Split(s, sep)) == s
    decreases |s|
  {
    if s != [] {
      var rest := Split(s[1..], sep);
      JoinSplit(s[1..], sep);
      if s[0] == sep {
        assert Split(s, sep) == [[]] + rest;
        assert Join([sep], [[]] + rest) == [] + [sep] + Join([sep], rest);
      } else {
        var p := [[s[0]] + rest[0]] + rest[1..];
        if |rest| == 1 {
          assert p == [[s[0]] + rest[0]];
          assert Join([sep], rest) == rest[0];
        } else {
          assert p[1..] == rest[1..];
          assert Join([sep], rest) == rest[0] + [sep] + Join([sep], rest[1..]);
          assert Join([sep], p) == [s[0]] + rest[0] + [sep] + Join([sep], rest[1..]);
        }
      }
    }
  }

  /** Splitting a join of separator-free pieces gives the pieces back. */
  lemma {:induction false} SplitJoin(parts: seq<string>, sep: char)
    requires |parts| >= 1
    requires forall i :: 0 <= i < |parts| ==> sep !in parts[i]
    ensures Split(Join([sep], parts), sep) == parts
    decreases |parts|, |parts[0]|
  {
    if |parts| == 1 {
      SplitOfSeparatorFree(parts[0], sep);
    } else if parts[0] == [] {
      var tail := Join([sep], parts[1..]);
      assert Join([sep], parts) == [sep] + tail;
      SplitJoin(parts[1..], sep);
      assert ([sep] + tail)[1..] == tail;
    } else {
      var p := parts[0];
      var shorter := [p[1..]] + parts[1..];
      assert p[0] != sep by { assert p[0] in p; }
      assert forall i :: 0 <= i < |shorter| ==> sep !in shorter[i] by {
        forall i | 0 <= i < |shorter| ensures sep !in shorter[i] {
          if i == 0 {
            assert forall c :: c in p[1..] ==> c in p;
          } else {
            assert shorter[i] == parts[i];
          }
        }
      }
      SplitJoin(shorter, sep);
      var j := Join([sep], parts);
      var js := Join([sep], shorter);
      assert shorter[1..] == parts[1..];
      if |parts| == 1 {
      } else {
        assert j == p + [sep] + Join([sep], parts[1..]);
        assert js == p[1..] + [sep] + Join([sep], parts[1..]);
      }
      assert j == [p[0]] + js;
      assert j[1..] == js;
      assert [p[0]] + p[1..] == p;
    }
  }

  lemma {:induction false} SplitOfSeparatorFree(s: string, sep: char)
    requires sep !in s
    ensures Split(s, sep) == [s]
    decreases |s|
  {
    if s != [] {
      assert sep !in s[1..] by { assert forall c :: c in s[1..] ==> c in s; }
      SplitOfSeparatorFree(s[1..], sep);
      assert [s[0]] + s[1..] == s;
    }
  }

  /** Characters of a join come from the pieces or the separator. */
  lemma {:induction false} JoinChars(sep: string, parts: seq<string>, c: char)
    requires c in Join(sep, parts)
    ensures c in sep || exists i :: 0 <= i < |parts| && c in parts[i]
    decreases |parts|
  {
    if |parts| > 1 {
      var tail := Join(sep, parts[1..]);
      assert Join(sep, parts) == parts[0] + sep + tail;
      if c !in parts[0] && c !in sep {
        assert c in tail;
        JoinChars(sep, parts[1..], c);
        var i :| 0 <= i < |parts[1..]| && c in parts[1..][i];
        assert c in parts[i + 1];
      }
    }
  }

  lemma {:induction false} JoinLength(sep: string, parts: seq<string>)
    ensures |parts| > 0 ==> |Join(sep, parts)| >= |parts[0]|
    ensures |Join(sep, parts)| == 0 <==>
              (|parts| == 0 || (|parts| == 1 && parts[0] == [])
               || (sep == [] && forall i :: 0 <= i < |parts| ==> parts[i] == []))
    decreases |parts|
  {
    if |parts| > 1 {
      JoinLength(sep, parts[1..]);
    }
  }

  // ---------------------------------------------------------------------------
  // Whitespace splitting, splitlines
  // ---------------------------------------------------------------------------

  /** The longest prefix of `s` without whitespace. */
  function TakeWord(s: string): (r: string)
    ensures |r| <= |s| && r == s[..|r|]
    ensures forall i :: 0 <= i < |r| ==> !IsSpace(r[i])
    ensures |r| < |s| ==> IsSpace(s[|r|])
    decreases |s|
  {
    if |s| > 0 && !IsSpace(s[0]) then [s[0]] + TakeWord(s[1..]) else []
  }

  /** `s.split()`: the maximal runs of non-whitespace characters. */
  function Words(s: string): (r: seq<string>)
    ensures forall i :: 0 <= i < |r| ==> r[i] != []
    decreases |s|
  {
    var t := LStrip(s);
    if t == [] then []
    else
      var w := TakeWord(t);
      assert w != [] by { LStripSpec(s); assert !IsSpace(t[0]); }
      [w] + Words(t[|w|..])
  }

  /** The index of the first line boundary of `s`, or `|s|` when there is none. */
  function LineLength(s: string): (n: nat)
    ensures n <= |s|
    ensures forall i :: 0 <= i < n ==> !IsLineBreak(s[i])
    ensures n < |s| ==> IsLineBreak(s[n])
    decreases |s|
  {
    if s == [] || IsLineBreak(s[0]) then 0 else 1 + LineLength(s[1..])
  }

  /** `s.splitlines()`: pieces between line boundaries, a CR LF pair being one
      boundary, and no empty piece after a final boundary. */
  function SplitLines(s: string): (r: seq<string>)
    ensures s == [] <==> r == []
    ensures forall i :: 0 <= i < |r| ==> forall j :: 0 <= j < |r[i]| ==> !IsLineBreak(r[i][j])
    decreases |s|
  {
    if s == [] then []
    else
      var n := LineLength(s);
      if n == |s| then [s]
      else
        var width := if s[n] == '\r' && n + 1 < |s| && s[n + 1] == '\n' then 2 else 1;
        [s[..n]] + SplitLines(s[n + width..])
  }

  /** The first line is everything up to the first boundary. */
  lemma FirstLine(s: string)
    requires s != []
    ensures SplitLines(s)[0] == s[..LineLength(s)]
  {
  }

  // ---------------------------------------------------------------------------
  // replace
  // ---------------------------------------------------------------------------

  /** `s.replace(pat, repl)`: non-overlapping occurrences, left to right. */
  function ReplaceAll(s: string, pat: string, repl: string): string
    requires pat != []
    decreases |s|
  {
    if s == [] then []
    else if StartsWith(s, pat) then repl + ReplaceAll(s[|pat|..], pat, repl)
    else [s[0]] + ReplaceAll(s[1..], pat, repl)
  }

  /** After replacing a character by another, the first no longer occurs. */
  lemma {:induction false} ReplaceCharRemoves(s: string, a: char, b: char)
    requires a != b
    ensures a !in ReplaceAll(s, [a], [b])
    ensures forall c :: c in ReplaceAll(s, [a], [b]) ==> c in s || c == b
    ensures |ReplaceAll(s, [a], [b])| == |s|
    decreases |s|
  {
    if s != [] {
      ReplaceCharRemoves(s[1..], a, b);
    }
  }

  /** Replacing only removes or inserts what the pattern and replacement say. */
  lemma {:induction false} ReplaceChars(s: string, pat: string, repl: string, c: char)
    requires pat != []
    requires c in ReplaceAll(s, pat, repl)
    ensures c in s || c in repl
    decreases |s|
  {
    if s != [] {
      if StartsWith(s, pat) {
        if c !in repl {
          ReplaceChars(s[|pat|..], pat, repl, c);
        }
      } else if c != s[0] {
        ReplaceChars(s[1..], pat, repl, c);
      }
    }
  }

  // ---------------------------------------------------------------------------
  // Python slicing
  // ---------------------------------------------------------------------------

  /** The length of `xs[:k]` for a list of length `n`; a negative `k` counts
      from the end. */
  function PrefixLength(n: nat, k: int): (r: nat)
    ensures r <= n
    ensures 0 <= k ==> r == if k < n then k else n
    ensures k < 0 ==> r == if n + k < 0 then 0 else n + k
  {
    if k >= 0 then (if k < n then k else n) else if n + k < 0 then 0 else n + k
  }

  /** `xs[:k]`. */
  function Take<T>(xs: seq<T>, k: int): (r: seq<T>)
    ensures r == xs[..PrefixLength(|xs|, k)]
  {
    xs[..PrefixLength(|xs|, k)]
  }

  // ---------------------------------------------------------------------------
  // Renderings
  // ---------------------------------------------------------------------------

  function DigitChar(d: nat): (c: char)
    requires d < 10
    ensures '0' <= c <= '9'
  {
    ('0' as int + d) as char
  }

  predicate IsDigits(s: string) {
    forall i :: 0 <= i < |s| ==> '0' <= s[i] <= '9'
  }

  /** Decimal digits of a natural number, as `str(n)`. */
  function NatToString(n: nat): (r: string)
    ensures r != [] && IsDigits(r)
    decreases n
  {
    if n < 10 then [DigitChar(n)] else NatToString(n / 10) + [DigitChar(n % 10)]
  }

  /** `str(i)` for an integer. */
  function IntToString(i: int): (r: string)
    ensures r != []
    ensures forall j :: 0 <= j < |r| ==> r[j] == '-' || '0' <= r[j] <= '9'
  {
    if i < 0 then "-" + NatToString(-i) else NatToString(i)
  }

  function Pow10(d: nat): (r: nat)
    ensures r >= 1
  {
    if d == 0 then 1 else 10 * Pow10(d - 1)
  }

  /** Round to the nearest integer, ties to the even one. */
  function RoundHalfEven(x: real): (n: int)
    ensures x - 1.0 / 2.0 <= n as real <= x + 1.0 / 2.0
  {
    var f := x.Floor;
    var frac := x - f as real;
    if frac > 1.0 / 2.0 then f + 1
    else if frac < 1.0 / 2.0 then f
    else if f % 2 == 0 then f else f + 1
  }

  function PadLeftZeros(s: string, width: nat): (r: string)
    ensures |r| == if |s| < width then width else |s|
    ensures IsDigits(s) ==> IsDigits(r)
    decreases width - |s|
  {
    if |s| < width then PadLeftZeros("0" + s, width) else s
  }

  /** The characters a rendered number is made of. */
  predicate NumberChars(s: string) {
    forall j :: 0 <= j < |s| ==> s[j] == '-' || s[j] == '.' || '0' <= s[j] <= '9'
  }

  lemma NumberCharsConcat(a: string, b: string)
    requires NumberChars(a) && NumberChars(b)
    ensures NumberChars(a + b)
  {
    forall j | 0 <= j < |a + b| ensures (a + b)[j] == '-' || (a + b)[j] == '.' || '0' <= (a + b)[j] <= '9' {
      if j >= |a| {
        assert (a + b)[j] == b[j - |a|];
      }
    }
  }

  lemma QuotientNat(m: nat, p: nat)
    requires p >= 1
    ensures m / p >= 0
  {
  }

  /** `m` scaled by `10^d`, written with `d` decimals. */
  function Decimals(m: nat, d: nat): (r: string)
    ensures r != [] && NumberChars(r)
  {
    var p := Pow10(d);
    QuotientNat(m, p);
    var whole := NatToString(m / p);
    var digits := if d == 0 then "" else "." + PadLeftZeros(NatToString(m % p), d);
    NumberCharsConcat(whole, digits);
    whole + digits
  }

  /** `|x|` scaled by `10^d` and rounded half to even. */
  function Scaled(x: real, d: nat): nat {
    var mag := if x < 0.0 then -x else x;
    var n := RoundHalfEven(mag * Pow10(d) as real);
    if n < 0 then 0 else n
  }

  function FormatFixedSteps(x: real, d: nat, steps: nat): (r: string)
    decreases steps
  {
    if steps > 0 then FormatFixedSteps(x, d, steps - 1)
    else (if x < 0.0 then "-" else "") + Decimals(Scaled(x, d), d)
  }

  /** `f"{x:.{d}f}"`, evaluated on the exact real: the sign, the integer part and
      `d` decimals rounded half to even. The body stays folded in callers'
      proofs. */
  function FormatFixed(x: real, d: nat): (r: string)
    ensures r != []
    ensures NumberChars(r)
  {
    assert FormatFixedSteps(x, d, 3) == FormatFixedSteps(x, d, 0);
    NumberCharsConcat(if x < 0.0 then "-" else "", Decimals(Scaled(x, d), d));
    FormatFixedSteps(x, d, Depth(x))
  }

  function HexDigit(d: nat): (c: char)
    requires d < 16
  {
    if d < 10 then DigitChar(d) else ('a' as int + d - 10) as char
  }

  /** One character as Python's `repr` of a string writes it, with `q` the
      enclosing quote. Backslash, the quote, tab, newline and carriage return get
      their short escapes; the other ASCII and Latin-1 control characters and the
      no-break and soft-hyphen characters get `\xNN`. */
  function EscapeChar(c: char, q: char): (r: string)
    requires q == '\'' || q == '"'
    ensures r != []
    ensures '\n' !in r && '\r' !in r
  {
    if c == '\\' then "\\\\"
    else if c == q then ['\\', q]
    else if c == '\t' then "\\t"
    else if c == '\n' then "\\n"
    else if c == '\r' then "\\r"
    else if c < ' ' || ('\U{7F}' <= c <= '\U{A0}') || c == '\U{AD}' then
      var v := c as int;
      ['\\', 'x', HexDigit(v / 16), HexDigit(v % 16)]
    else [c]
  }

  function EscapeAll(s: string, q: char): (r: string)
    requires q == '\'' || q == '"'
    ensures '\n' !in r && '\r' !in r
  {
    if s == [] then [] else EscapeChar(s[0], q) + EscapeAll(s[1..], q)
  }

  /** `repr(s)`: single quotes unless the text holds a single quote and no
      double quote. The result is always on one line. */
  function StrRepr(s: string): (r: string)
    ensures |r| >= 2 && (r[0] == '\'' || r[0] == '"') && r[|r| - 1] == r[0]
    ensures '\n' !in r && '\r' !in r
  {
    var q := if '\'' in s && '"' !in s then '"' else '\'';
    [q] + EscapeAll(s, q) + [q]
  }
}
