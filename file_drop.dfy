/** The file-drop adapter of the lead-intake product: which inbox files are
    picked up, how a file's text becomes a lead, and the name a handled file
    is moved to. The directory listing, the file contents, the clock, the
    id generator and the modification time are inputs. */
module FileDrop {
  import opened Wrappers
  import opened Strings
  import opened LeadContracts
  import opened Normalizer

  // ---------------------------------------------------------------------------
  // File names
  // ---------------------------------------------------------------------------

  /** `s.rfind(c)`: the last position of `c`, or -1. */
  function LastIndex(s: string, c: char): (i: int)
    ensures -1 <= i < |s|
    ensures i >= 0 ==> s[i] == c && forall j :: i < j < |s| ==> s[j] != c
    ensures i == -1 ==> c !in s
    decreases |s|
  {
    if s == [] then -1
    else if s[|s| - 1] == c then |s| - 1
    else
      var i := LastIndex(s[..|s| - 1], c);
      assert forall j :: 0 <= j < |s| - 1 ==> s[..|s| - 1][j] == s[j];
      i
  }

  /** Where the suffix of `name` starts, when it has one: the last dot,
      neither the first nor the last character. */
  predicate HasSuffix(name: string) {
    0 < LastIndex(name, '.') < |name| - 1
  }

  /** `PurePath.suffix`. */
  function Suffix(name: string): string {
    if HasSuffix(name) then name[LastIndex(name, '.')..] else []
  }

  /** `PurePath.stem`. */
  function Stem(name: string): string {
    if HasSuffix(name) then name[..LastIndex(name, '.')] else name
  }

  /** The stem and the suffix make up the name. */
  lemma StemSuffix(name: string)
    ensures Stem(name) + Suffix(name) == name
  {
  }

  /** A suffix is a dot followed by at least one character, none of them a
      dot. */
  lemma SuffixShape(name: string)
    requires HasSuffix(name)
    ensures |Suffix(name)| >= 2 && Suffix(name)[0] == '.'
    ensures '.' !in Suffix(name)[1..]
  {
    var i := LastIndex(name, '.');
    var x := Suffix(name);
    forall j | 0 <= j < |x| - 1 ensures x[1..][j] != '.' {
      assert x[1..][j] == name[i + 1 + j];
    }
  }

  lemma LastIndexAppend(a: string, b: string, c: char)
    requires c in b
    ensures LastIndex(a + b, c) == |a| + LastIndex(b, c)
  {
    var k := LastIndex(b, c);
    var s := a + b;
    assert s[|a| + k] == c;
  }

  // ---------------------------------------------------------------------------
  // list_inbox_files
  // ---------------------------------------------------------------------------

  /** A directory entry: its name and whether it is a regular file. */
  datatype Entry = Entry(name: string, isFile: bool)

  /** `SUPPORTED_EXTS` holds `.txt` only. */
  predicate Supported(e: Entry) {
    e.isFile && Lower(Suffix(e.name)) == ".txt"
  }

  /** The comprehension of `list_inbox_files`, in listing order. */
  function Candidates(entries: seq<Entry>): (r: seq<string>)
    ensures |r| <= |entries|
    decreases |entries|
  {
    if entries == [] then []
    else (if Supported(entries[0]) then [entries[0].name] else []) + Candidates(entries[1..])
  }

  /** String order: code point by code point, a prefix first. */
  predicate LexLe(a: string, b: string)
    decreases |a|
  {
    a == [] || (b != [] && (a[0] < b[0] || (a[0] == b[0] && LexLe(a[1..], b[1..]))))
  }

  lemma {:induction false} LexTotal(a: string, b: string)
    ensures LexLe(a, b) || LexLe(b, a)
    decreases |a|
  {
    if a != [] && b != [] && a[0] == b[0] {
      LexTotal(a[1..], b[1..]);
    }
  }

  lemma {:induction false} LexTrans(a: string, b: string, c: string)
    requires LexLe(a, b) && LexLe(b, c)
    ensures LexLe(a, c)
    decreases |a|
  {
    if a != [] && a[0] == b[0] && b[0] == c[0] {
      LexTrans(a[1..], b[1..], c[1..]);
    }
  }

  predicate Sorted(s: seq<string>) {
    forall i, j :: 0 <= i < j < |s| ==> LexLe(s[i], s[j])
  }

  /** `x` put before the first element it does not follow. */
  function Insert(x: string, s: seq<string>): (r: seq<string>)
    decreases |s|
  {
    if s == [] || LexLe(x, s[0]) then [x] + s else [s[0]] + Insert(x, s[1..])
  }

  /** `sorted(names)`. */
  function Sort(s: seq<string>): seq<string>
    decreases |s|
  {
    if s == [] then [] else Insert(s[0], Sort(s[1..]))
  }

  lemma {:induction false} InsertPerm(x: string, s: seq<string>)
    ensures multiset(Insert(x, s)) == multiset(s) + multiset{x}
    decreases |s|
  {
    if !(s == [] || LexLe(x, s[0])) {
      InsertPerm(x, s[1..]);
      assert s == [s[0]] + s[1..];
    }
  }

  lemma {:induction false} InsertSorted(x: string, s: seq<string>)
    requires Sorted(s)
    ensures Sorted(Insert(x, s))
    decreases |s|
  {
    if s == [] || LexLe(x, s[0]) {
      var r := [x] + s;
      forall i, j | 0 <= i < j < |r| ensures LexLe(r[i], r[j]) {
        if i == 0 && j > 1 {
          LexTrans(x, s[0], s[j - 1]);
        } else if i > 0 {
          assert r[i] == s[i - 1] && r[j] == s[j - 1];
        }
      }
    } else {
      var t := s[1..];
      assert Sorted(t) by {
        forall i, j | 0 <= i < j < |t| ensures LexLe(t[i], t[j]) {
          assert t[i] == s[i + 1] && t[j] == s[j + 1];
        }
      }
      InsertSorted(x, t);
      InsertPerm(x, t);
      LexTotal(x, s[0]);
      var ins := Insert(x, t);
      var r := [s[0]] + ins;
      forall i, j | 0 <= i < j < |r| ensures LexLe(r[i], r[j]) {
        if i == 0 {
          FirstBelow(s, x, ins, j - 1);
        } else {
          assert r[i] == ins[i - 1] && r[j] == ins[j - 1];
        }
      }
    }
  }

  /** The head of a sorted list precedes everything inserted behind it. */
  lemma FirstBelow(s: seq<string>, x: string, ins: seq<string>, j: nat)
    requires Sorted(s) && s != [] && LexLe(s[0], x)
    requires multiset(ins) == multiset(s[1..]) + multiset{x}
    requires j < |ins|
    ensures LexLe(s[0], ins[j])
  {
    var y := ins[j];
    assert y in multiset(ins);
    if y != x {
      assert y in multiset(s[1..]);
      var k :| 0 <= k < |s[1..]| && s[1..][k] == y;
      assert s[k + 1] == y;
    }
  }

  /** The sort orders its input and keeps every name as often as it came. */
  lemma {:induction false} SortSpec(s: seq<string>)
    ensures Sorted(Sort(s))
    ensures multiset(Sort(s)) == multiset(s)
    decreases |s|
  {
    if s != [] {
      SortSpec(s[1..]);
      InsertSorted(s[0], Sort(s[1..]));
      InsertPerm(s[0], Sort(s[1..]));
      assert s == [s[0]] + s[1..];
    }
  }

  /** `list_inbox_files(inbox_dir)` over the directory's entries. */
  function ListInboxFiles(entries: seq<Entry>): seq<string> {
    Sort(Candidates(entries))
  }

  /** A name is kept exactly when some entry with it is a file with a `.txt`
      suffix in any letter case. */
  lemma {:induction false} CandidatesSpec(entries: seq<Entry>, name: string)
    ensures name in Candidates(entries) <==>
      exists i :: 0 <= i < |entries| && entries[i].name == name && Supported(entries[i])
    decreases |entries|
  {
    if entries != [] {
      CandidatesSpec(entries[1..], name);
      assert forall i :: 1 <= i < |entries| ==> entries[1..][i - 1] == entries[i];
      if exists i :: 0 <= i < |entries| && entries[i].name == name && Supported(entries[i]) {
        var i :| 0 <= i < |entries| && entries[i].name == name && Supported(entries[i]);
        if i > 0 {
          assert entries[1..][i - 1] == entries[i];
        }
      }
    }
  }

  /** The listing is sorted and holds the supported files, each as often as
      the directory lists it. */
  lemma ListInboxFilesSpec(entries: seq<Entry>, name: string)
    ensures Sorted(ListInboxFiles(entries))
    ensures multiset(ListInboxFiles(entries)) == multiset(Candidates(entries))
    ensures name in ListInboxFiles(entries) <==>
      exists i :: 0 <= i < |entries| && entries[i].name == name && Supported(entries[i])
  {
    SortSpec(Candidates(entries));
    CandidatesSpec(entries, name);
    assert name in ListInboxFiles(entries) <==> name in multiset(ListInboxFiles(entries));
  }

  // ---------------------------------------------------------------------------
  // ingest_file
  // ---------------------------------------------------------------------------

  const NoSubject: string := "(no subject)"

  const FileAddress: string := "unknown@filedrop"

  /** The subject and the body read from a file's text. */
  datatype Parsed = Parsed(subject: string, body: string)

  /** The first line starts with `subject:` in any letter case. */
  predicate HasSubjectLine(raw: string) {
    SplitLines(raw) != [] && StartsWith(Lower(SplitLines(raw)[0]), "subject:")
  }

  /** The text after the first colon of a subject line. */
  function AfterColon(line: string): string
    requires StartsWith(Lower(line), "subject:")
  {
    assert Lower(line)[7] == ':';
    line[IndexOf(line, ':') + 1..]
  }

  /** The subject and body `ingest_file` settles on. */
  function ParseRaw(raw: string): Parsed {
    if HasSubjectLine(raw) then
      var lines := SplitLines(raw);
      var subject := Strip(AfterColon(lines[0]));
      Parsed(if subject == [] then NoSubject else subject, Join("\n", lines[1..]))
    else Parsed(NoSubject, raw)
  }

  /** `ingest_file(path)` for a file at `path` holding `raw`. */
  function IngestFile(raw: string, path: string, freshId: string, now: string): Result<Lead, string>
    requires |freshId| == 32
  {
    var p := ParseRaw(raw);
    MakeLead(SourceFile, FileAddress, p.subject, Normalize(p.body), path, None, None, Unknown, None, freshId, now)
  }

  /** In a subject line the first colon is the one after `subject`. */
  lemma AfterColonSpec(line: string)
    requires StartsWith(Lower(line), "subject:")
    ensures AfterColon(line) == line[8..]
  {
    assert Lower(line)[..8] == "subject:";
    assert line[7] == ':' by { assert LowerChar(line[7]) == ':'; }
    var k := IndexOf(line, ':');
    assert k <= 7;
    assert k >= 7 by {
      forall j | 0 <= j < 7 ensures line[j] != ':' {
        assert LowerChar(line[j]) == "subject:"[j];
      }
    }
  }

  /** With a subject line the subject is the rest of that line, stripped, or
      `(no subject)` when that is blank, and the body is the other lines;
      without one the subject is `(no subject)` and the body all of the
      text. */
  lemma ParseRawSpec(raw: string)
    ensures HasSubjectLine(raw) ==>
      var lines := SplitLines(raw);
      var rest := Strip(lines[0][8..]);
      ParseRaw(raw) == Parsed(if rest == [] then NoSubject else rest, Join("\n", lines[1..]))
    ensures !HasSubjectLine(raw) ==> ParseRaw(raw) == Parsed(NoSubject, raw)
  {
    if HasSubjectLine(raw) {
      AfterColonSpec(SplitLines(raw)[0]);
    }
  }

  lemma NoSubjectStripped()
    ensures Strip(NoSubject) == NoSubject && NoSubject != []
    ensures Strip(FileAddress) == FileAddress && |FileAddress| <= 256 && FileAddress != []
  {
    StripOfStripped(NoSubject);
    StripOfStripped(FileAddress);
  }

  /** The subject is never blank and already stripped. */
  lemma ParsedSubject(raw: string)
    ensures ParseRaw(raw).subject != [] && Strip(ParseRaw(raw).subject) == ParseRaw(raw).subject
  {
    NoSubjectStripped();
    if HasSubjectLine(raw) {
      StripIdempotent(AfterColon(SplitLines(raw)[0]));
    }
  }

  /** Ingestion succeeds exactly when the subject fits, the cleaned body is
      not empty, and the path, the fresh id and the clock reading are fine;
      in particular a body that cleans to nothing makes it fail. */
  lemma IngestFileAccepts(raw: string, path: string, freshId: string, now: string)
    requires |freshId| == 32
    ensures IngestFile(raw, path, freshId, now).Ok? <==>
      |ParseRaw(raw).subject| <= 500 && Normalize(ParseRaw(raw).body) != []
      && FieldOk(path, 500) && FieldOk(freshId, 64) && FieldOk(now, 32)
  {
    var p := ParseRaw(raw);
    var text := Normalize(p.body);
    MakeLeadAccepts(SourceFile, FileAddress, p.subject, text, path, None, None, Unknown, None, freshId, now);
    ParsedSubject(raw);
    NoSubjectStripped();
    NormalizeClean(p.body);
    StripOfStripped(text);
    NormalizeLength(p.body);
  }

  /** A file lead comes from `FILE` and `unknown@filedrop`, refers to its
      path, and holds the parsed subject, the cleaned body, no urgency yet,
      the fresh id and the clock reading. */
  lemma IngestFileSpec(raw: string, path: string, freshId: string, now: string)
    requires |freshId| == 32
    requires IngestFile(raw, path, freshId, now).Ok?
    ensures var l := IngestFile(raw, path, freshId, now).value;
      ValidLead(l) && l.source == SourceFile && l.fromAddress == FileAddress
      && l.rawRef == Strip(path) && l.subject == ParseRaw(raw).subject
      && l.leadText == Normalize(ParseRaw(raw).body) && l.urgency == Unknown
      && l.leadId == freshId && l.receivedAt == now && l.clientId.None?
  {
    var p := ParseRaw(raw);
    var text := Normalize(p.body);
    MakeLeadSpec(SourceFile, FileAddress, p.subject, text, path, None, None, Unknown, None, freshId, now);
    ParsedSubject(raw);
    NoSubjectStripped();
    NormalizeClean(p.body);
    StripOfStripped(text);
  }

  // ---------------------------------------------------------------------------
  // move_to_processed
  // ---------------------------------------------------------------------------

  /** The name `move_to_processed` moves `srcName` to, given the names already
      in the processed directory and the file's modification time in
      nanoseconds. */
  function ProcessedName(srcName: string, taken: set<string>, mtimeNs: nat): string {
    if srcName in taken then Stem(srcName) + "_" + NatToString(mtimeNs) + Suffix(srcName)
    else srcName
  }

  /** A free name is kept; a taken one gets `_<mtime_ns>` after its stem,
      which makes it differ from the source name and keeps its suffix.
      (A name ending in a dot, such as `a.`, has no suffix, but `a._7` has
      one, `._7`.) */
  lemma ProcessedNameSpec(srcName: string, taken: set<string>, mtimeNs: nat)
    ensures srcName !in taken ==> ProcessedName(srcName, taken, mtimeNs) == srcName
    ensures srcName in taken ==>
      var r := ProcessedName(srcName, taken, mtimeNs);
      r != srcName && StartsWith(r, Stem(srcName) + "_") && EndsWith(r, Suffix(srcName))
      && (Suffix(srcName) != [] ==> Suffix(r) == Suffix(srcName))
  {
    if srcName in taken {
      var stem := Stem(srcName);
      var suf := Suffix(srcName);
      var digits := NatToString(mtimeNs);
      var r := stem + "_" + digits + suf;
      StemSuffix(srcName);
      assert |r| > |srcName|;
      assert r[..|stem + "_"|] == stem + "_";
      assert r[|r| - |suf|..] == suf;
      if HasSuffix(srcName) {
        SuffixShape(srcName);
        var front := stem + "_" + digits;
        assert suf in [suf];
        assert '.' in suf by { assert suf[0] == '.'; }
        LastIndexAppend(front, suf, '.');
        assert LastIndex(suf, '.') == 0;
        assert r == front + suf;
      }
    }
  }
}
