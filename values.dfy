/** Python values as the modelled code sees them: the JSON-like dictionaries that
    tools return and runs are stored as. A dictionary keeps its insertion order,
    as Python's does, so it is a sequence of entries. Floats do not occur here;
    any value the model does not interpret is `VOther`, with its type name and
    its `repr` text. */
module Values {
  import opened Wrappers
  import opened Strings

  datatype Value =
    | VNone
    | VBool(b: bool)
    | VInt(i: int)
    | VStr(s: string)
    | VList(items: seq<Value>)
    | VDict(entries: seq<Entry>)
    | VOther(typeName: string, text: string)

  datatype Entry = Entry(key: string, val: Value)

  type Dict = seq<Entry>

  // ---------------------------------------------------------------------------
  // Dictionary access
  // ---------------------------------------------------------------------------

  /** The keys of a dictionary. */
  function Keys(d: Dict): (ks: set<string>)
    ensures forall i :: 0 <= i < |d| ==> d[i].key in ks
    decreases |d|
  {
    if d == [] then {} else {d[0].key} + Keys(d[1..])
  }

  /** `d.get(key)`: the value of the first entry with that key. */
  function Get(d: Dict, key: string): (r: Option<Value>)
    ensures r.None? <==> key !in Keys(d)
    decreases |d|
  {
    if d == [] then None
    else if d[0].key == key then Some(d[0].val)
    else Get(d[1..], key)
  }

  /** `d[key] = v`: replaces the value in place when the key is present, else
      appends a new entry at the end. */
  function Put(d: Dict, key: string, v: Value): (r: Dict)
    ensures Keys(r) == Keys(d) + {key}
    ensures key in Keys(d) ==> |r| == |d|
    ensures key !in Keys(d) ==> r == d + [Entry(key, v)]
    decreases |d|
  {
    if d == [] then [Entry(key, v)]
    else if d[0].key == key then
      assert ([Entry(key, v)] + d[1..])[1..] == d[1..];
      [Entry(key, v)] + d[1..]
    else
      var rest := Put(d[1..], key, v);
      assert ([d[0]] + rest)[1..] == rest;
      assert key !in Keys(d) ==> [d[0]] + rest == d + [Entry(key, v)] by {
        if key !in Keys(d) {
          assert d == [d[0]] + d[1..];
        }
      }
      [d[0]] + rest
  }

  /** The entry at `i` is the one `Get` finds when no earlier entry has its key. */
  lemma {:induction false} GetIndex(d: Dict, i: nat)
    requires i < |d|
    requires forall j :: 0 <= j < i ==> d[j].key != d[i].key
    ensures Get(d, d[i].key) == Some(d[i].val)
    decreases i
  {
    if i > 0 {
      assert d[1..][i - 1] == d[i];
      assert forall j :: 0 <= j < i - 1 ==> d[1..][j] == d[j + 1];
      GetIndex(d[1..], i - 1);
    }
  }

  /** Reading back a written key gives the written value; other keys keep theirs. */
  lemma {:induction false} GetPut(d: Dict, key: string, v: Value, other: string)
    ensures Get(Put(d, key, v), key) == Some(v)
    ensures other != key ==> Get(Put(d, key, v), other) == Get(d, other)
    decreases |d|
  {
    if d != [] && d[0].key != key {
      GetPut(d[1..], key, v, other);
      var rest := Put(d[1..], key, v);
      assert ([d[0]] + rest)[1..] == rest;
    } else if d != [] {
      assert (([Entry(key, v)] + d[1..])[1..]) == d[1..];
    }
  }

  // ---------------------------------------------------------------------------
  // Truthiness and rendering
  // ---------------------------------------------------------------------------

  /** Python truthiness: `None`, `False`, `0`, `""`, `[]` and `{}` are false. */
  predicate Truthy(v: Value) {
    match v
    case VNone => false
    case VBool(b) => b
    case VInt(i) => i != 0
    case VStr(s) => s != []
    case VList(items) => items != []
    case VDict(entries) => entries != []
    case VOther(_, _) => true
  }

  /** `repr(v)`. */
  function Repr(v: Value): (r: string)
    ensures r != []
    decreases v
  {
    match v
    case VNone => "None"
    case VBool(b) => if b then "True" else "False"
    case VInt(i) => IntToString(i)
    case VStr(s) => StrRepr(s)
    case VList(items) =>
      "[" + Join(", ", seq(|items|, i requires 0 <= i < |items| => Repr(items[i]))) + "]"
    case VDict(entries) =>
      "{" + Join(", ", seq(|entries|, i requires 0 <= i < |entries| =>
                             StrRepr(entries[i].key) + ": " + Repr(entries[i].val))) + "}"
    case VOther(_, text) => if text == [] then "?" else text
  }

  /** `str(v)`: the text itself for a string, `repr` for everything else. */
  function ToStr(v: Value): (r: string)
    ensures !v.VStr? ==> r != []
  {
    if v.VStr? then v.s else Repr(v)
  }

  /** `str(x)` of an optional string, `None` printing as `None`. */
  function OptStr(x: Option<string>): (r: string)
    ensures x.Some? ==> r == x.value
  {
    if x.Some? then x.value else "None"
  }

  /** `type(v).__name__`. */
  function TypeName(v: Value): (r: string)
    ensures r != []
  {
    match v
    case VNone => "NoneType"
    case VBool(_) => "bool"
    case VInt(_) => "int"
    case VStr(_) => "str"
    case VList(_) => "list"
    case VDict(_) => "dict"
    case VOther(t, _) => if t == [] then "object" else t
  }
}
